/** The catalogue queries of src/fonts.js. The catalogue that
    `getAvailableFonts()` fetches is passed in as a sequence. */
module Fonts {
  import opened Wrappers
  import opened JsStrings

  /** One catalogue entry; only the fields the queries read are kept. */
  datatype FontInfo = FontInfo(fontFamily: string, importName: string)

  /** `getAllFontNames`: the family of every entry, in catalogue order. */
  function GetAllFontNames(catalog: seq<FontInfo>): (names: seq<string>)
    ensures |names| == |catalog|
    ensures forall i :: 0 <= i < |catalog| ==> names[i] == catalog[i].fontFamily
  {
    if catalog == [] then [] else [catalog[0].fontFamily] + GetAllFontNames(catalog[1..])
  }

  /** `i` is the first position whose family is `family`. */
  predicate FirstWithFamily(catalog: seq<FontInfo>, family: string, i: int) {
    0 <= i < |catalog| && catalog[i].fontFamily == family &&
    forall j :: 0 <= j < i ==> catalog[j].fontFamily != family
  }

  /** `getFontInfo`: the first entry whose family equals `family` exactly, or
      `None` (the source's `null`) when there is none. */
  function GetFontInfo(catalog: seq<FontInfo>, family: string): (r: Option<FontInfo>)
    ensures r.None? <==> forall i :: 0 <= i < |catalog| ==> catalog[i].fontFamily != family
    ensures r.Some? ==> r.value.fontFamily == family && exists i :: FirstWithFamily(catalog, family, i) && catalog[i] == r.value
  {
    if catalog == [] then None
    else if catalog[0].fontFamily == family then Some(catalog[0])
    else
      var r := GetFontInfo(catalog[1..], family);
      assert r.Some? ==> exists i :: FirstWithFamily(catalog, family, i) && catalog[i] == r.value by {
        if r.Some? {
          var k :| FirstWithFamily(catalog[1..], family, k) && catalog[1..][k] == r.value;
          forall j | 0 <= j < k + 1 ensures catalog[j].fontFamily != family {
            if j > 0 { assert catalog[j] == catalog[1..][j - 1]; }
          }
          assert FirstWithFamily(catalog, family, k + 1);
        }
      }
      r
  }

  /** The filter predicate of `searchFonts`, with the query already lower-cased. */
  predicate Matches(font: FontInfo, lowerQuery: string) {
    Includes(ToLowerAscii(font.fontFamily), lowerQuery)
  }

  /** `fonts.filter(...)`: the entries that match, in catalogue order. */
  function FilterMatching(catalog: seq<FontInfo>, lowerQuery: string): seq<FontInfo>
  {
    if catalog == [] then []
    else if Matches(catalog[0], lowerQuery) then [catalog[0]] + FilterMatching(catalog[1..], lowerQuery)
    else FilterMatching(catalog[1..], lowerQuery)
  }

  /** `searchFonts`: filter on a case-insensitive substring test, then take
      the family names. */
  function SearchFonts(catalog: seq<FontInfo>, query: string): seq<string>
  {
    GetAllFontNames(FilterMatching(catalog, ToLowerAscii(query)))
  }

  /** `a` is obtained from `b` by deleting elements. */
  predicate IsSubsequence<T(==)>(a: seq<T>, b: seq<T>)
    decreases |b|
  {
    if a == [] then true
    else if b == [] then false
    else (a[0] == b[0] && IsSubsequence(a[1..], b[1..])) || IsSubsequence(a, b[1..])
  }

  lemma {:induction false} FilterProperties(catalog: seq<FontInfo>, lq: string)
    ensures IsSubsequence(GetAllFontNames(FilterMatching(catalog, lq)), GetAllFontNames(catalog))
    ensures forall x :: x in FilterMatching(catalog, lq) <==> x in catalog && Matches(x, lq)
  {
    if catalog != [] {
      FilterProperties(catalog[1..], lq);
      var rest := GetAllFontNames(FilterMatching(catalog[1..], lq));
      var names := GetAllFontNames(catalog);
      assert names[1..] == GetAllFontNames(catalog[1..]);
      if Matches(catalog[0], lq) {
        var r := GetAllFontNames(FilterMatching(catalog, lq));
        assert r[0] == names[0] && r[1..] == rest;
      }
    }
  }

  /** The positions of the entries that match, in increasing order. */
  function MatchPositions(catalog: seq<FontInfo>, lowerQuery: string): seq<nat>
  {
    if catalog == [] then []
    else
      var rest := MatchPositions(catalog[1..], lowerQuery);
      var shifted := seq(|rest|, k requires 0 <= k < |rest| => rest[k] + 1);
      if Matches(catalog[0], lowerQuery) then [0] + shifted else shifted
  }

  /** `MatchPositions` is strictly increasing, so it lists each position
      once. */
  lemma {:induction false} MatchPositionsOrdered(catalog: seq<FontInfo>, lq: string)
    ensures forall k, l :: 0 <= k < l < |MatchPositions(catalog, lq)| ==>
      MatchPositions(catalog, lq)[k] < MatchPositions(catalog, lq)[l]
  {
    if catalog != [] {
      MatchPositionsOrdered(catalog[1..], lq);
      var rest := MatchPositions(catalog[1..], lq);
      var shifted := seq(|rest|, k requires 0 <= k < |rest| => rest[k] + 1);
      forall k, l | 0 <= k < l < |shifted| ensures shifted[k] < shifted[l] {
        assert rest[k] < rest[l];
      }
    }
  }

  /** A position is listed exactly when its entry matches. */
  lemma {:induction false} MatchPositionsMembership(catalog: seq<FontInfo>, lq: string)
    ensures forall i :: i in MatchPositions(catalog, lq) <==> 0 <= i < |catalog| && Matches(catalog[i], lq)
  {
    if catalog != [] {
      MatchPositionsMembership(catalog[1..], lq);
      var rest := MatchPositions(catalog[1..], lq);
      var shifted := seq(|rest|, k requires 0 <= k < |rest| => rest[k] + 1);
      forall i ensures i in shifted <==> 0 < i < |catalog| && Matches(catalog[i], lq) {
        if i in shifted {
          var k :| 0 <= k < |shifted| && shifted[k] == i;
          assert rest[k] in rest;
          assert catalog[1..][rest[k]] == catalog[i];
        }
        if 0 < i < |catalog| && Matches(catalog[i], lq) {
          assert catalog[1..][i - 1] == catalog[i];
          var k :| 0 <= k < |rest| && rest[k] == i - 1;
          assert shifted[k] == i;
        }
      }
    }
  }

  /** The filter keeps exactly the entries at `MatchPositions`, in that order. */
  lemma {:induction false} FilterListing(catalog: seq<FontInfo>, lq: string)
    ensures var f, p := FilterMatching(catalog, lq), MatchPositions(catalog, lq);
      |f| == |p| && forall k :: 0 <= k < |f| ==> p[k] < |catalog| && f[k] == catalog[p[k]]
  {
    if catalog != [] {
      FilterListing(catalog[1..], lq);
      var c1 := catalog[1..];
      var f1, rest := FilterMatching(c1, lq), MatchPositions(c1, lq);
      var shifted := seq(|rest|, k requires 0 <= k < |rest| => rest[k] + 1);
      assert forall k :: 0 <= k < |f1| ==> shifted[k] < |catalog| && f1[k] == catalog[shifted[k]] by {
        forall k | 0 <= k < |f1| ensures shifted[k] < |catalog| && f1[k] == catalog[shifted[k]] {
          assert f1[k] == c1[rest[k]];
        }
      }
    }
  }

  /** The exact search result: one name per matching entry, in catalogue
      order, duplicates included. */
  lemma SearchFontsListing(catalog: seq<FontInfo>, query: string)
    ensures var r, p := SearchFonts(catalog, query), MatchPositions(catalog, ToLowerAscii(query));
      |r| == |p| && forall k :: 0 <= k < |r| ==> p[k] < |catalog| && r[k] == catalog[p[k]].fontFamily
  {
    FilterListing(catalog, ToLowerAscii(query));
  }

  /** A name is a search result exactly when some catalogue entry has that
      family and the family, lower-cased, contains the lower-cased query. */
  lemma SearchFontsMembership(catalog: seq<FontInfo>, query: string, name: string)
    ensures name in SearchFonts(catalog, query) <==>
      exists i :: 0 <= i < |catalog| && catalog[i].fontFamily == name &&
        Includes(ToLowerAscii(name), ToLowerAscii(query))
  {
    var lq := ToLowerAscii(query);
    var f := FilterMatching(catalog, lq);
    FilterProperties(catalog, lq);
    if name in SearchFonts(catalog, query) {
      var k :| 0 <= k < |f| && f[k].fontFamily == name;
      assert f[k] in catalog;
    }
    if exists i :: 0 <= i < |catalog| && catalog[i].fontFamily == name && Includes(ToLowerAscii(name), lq) {
      var i :| 0 <= i < |catalog| && catalog[i].fontFamily == name && Includes(ToLowerAscii(name), lq);
      assert catalog[i] in f;
    }
  }

  /** Search results keep catalogue order: they form a subsequence of
      `getAllFontNames`. */
  lemma SearchFontsOrdered(catalog: seq<FontInfo>, query: string)
    ensures IsSubsequence(SearchFonts(catalog, query), GetAllFontNames(catalog))
  {
    FilterProperties(catalog, ToLowerAscii(query));
  }

  /** Queries that differ only in the case of letters give identical results. */
  lemma SearchFontsCaseInsensitive(catalog: seq<FontInfo>, q1: string, q2: string)
    requires SameIgnoringCase(q1, q2)
    ensures SearchFonts(catalog, q1) == SearchFonts(catalog, q2)
  {
    SameIgnoringCaseLower(q1, q2);
  }

  lemma {:induction false} FilterAllMatch(catalog: seq<FontInfo>)
    ensures FilterMatching(catalog, "") == catalog
  {
    if catalog != [] {
      IncludesEmptyAndSelf(ToLowerAscii(catalog[0].fontFamily));
      FilterAllMatch(catalog[1..]);
    }
  }

  /** The empty query matches every entry: the result is the whole list of
      names. */
  lemma SearchFontsEmptyQuery(catalog: seq<FontInfo>)
    ensures SearchFonts(catalog, "") == GetAllFontNames(catalog)
  {
    assert ToLowerAscii("") == "";
    FilterAllMatch(catalog);
  }

  /** Searching for the exact family of an entry finds that family. */
  lemma SearchFontsFindsExactName(catalog: seq<FontInfo>, i: int)
    requires 0 <= i < |catalog|
    ensures catalog[i].fontFamily in SearchFonts(catalog, catalog[i].fontFamily)
  {
    var name := catalog[i].fontFamily;
    IncludesEmptyAndSelf(ToLowerAscii(name));
    SearchFontsMembership(catalog, name, name);
  }

  /** Every search result is one of the catalogue's names. */
  lemma SearchFontsWithinAllNames(catalog: seq<FontInfo>, query: string, name: string)
    requires name in SearchFonts(catalog, query)
    ensures name in GetAllFontNames(catalog)
  {
    SearchFontsMembership(catalog, query, name);
    var i :| 0 <= i < |catalog| && catalog[i].fontFamily == name;
    assert GetAllFontNames(catalog)[i] == name;
  }
}
