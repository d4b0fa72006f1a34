/** The pure per-item computations of `FontGenerator` (src/generator.js): the
    option defaulting of the constructor, and the width, file name, stylesheet
    family value and capture flags that `generatePreview` derives for one font. */
module Preview {
  import opened JsStrings
  import opened UriComponent
  import Config

  /** A string option as the caller may pass it: absent (`undefined`) or a string. */
  datatype TextArg = TextAbsent | Text(s: string)

  /** A numeric option: absent, `NaN` (what `parseInt` returns for garbage) or an integer. */
  datatype NumArg = NumAbsent | NaN | Num(n: int)

  /** The `options` object handed to the constructor. */
  datatype RawOptions = RawOptions(
    outputDir: TextArg, height: NumArg, backgroundColor: TextArg,
    textColor: TextArg, fontSize: NumArg)

  const NoOptions := RawOptions(TextAbsent, NumAbsent, TextAbsent, TextAbsent, NumAbsent)

  /** The options the generator keeps after defaulting. */
  datatype Options = Options(
    outputDir: string, height: int, backgroundColor: string,
    textColor: string, fontSize: int)

  /** JavaScript truthiness: `undefined`, `''`, `NaN` and `0` are falsy. */
  predicate TextTruthy(a: TextArg) { a.Text? && a.s != "" }
  predicate NumTruthy(a: NumArg) { a.Num? && a.n != 0 }

  /** `a || fallback` */
  function TextOr(a: TextArg, fallback: string): string {
    if TextTruthy(a) then a.s else fallback
  }

  function NumOr(a: NumArg, fallback: int): int {
    if NumTruthy(a) then a.n else fallback
  }

  /** The constructor's defaulting: each truthy option is kept, each falsy or
      missing one is replaced by the configured value. `cwd` stands for
      `process.cwd()`. */
  function ResolveOptions(raw: RawOptions, cwd: string): (o: Options)
    ensures o.outputDir == if TextTruthy(raw.outputDir) then raw.outputDir.s
                           else JoinPath(cwd, Config.OutputDirectory)
    ensures o.height == if NumTruthy(raw.height) then raw.height.n else Config.CanvasHeight
    ensures o.backgroundColor == if TextTruthy(raw.backgroundColor) then raw.backgroundColor.s
                                 else Config.BackgroundColor
    ensures o.textColor == if TextTruthy(raw.textColor) then raw.textColor.s else Config.FontColor
    ensures o.fontSize == if NumTruthy(raw.fontSize) then raw.fontSize.n else Config.FontSize
  {
    Options(
      TextOr(raw.outputDir, JoinPath(cwd, Config.OutputDirectory)),
      NumOr(raw.height, Config.CanvasHeight),
      TextOr(raw.backgroundColor, Config.BackgroundColor),
      TextOr(raw.textColor, Config.FontColor),
      NumOr(raw.fontSize, Config.FontSize))
  }

  /** A generator built with no options, or with only falsy ones, renders
      64px black text, 100px high, on a transparent background. */
  lemma FalsyOptionsGiveDefaults(raw: RawOptions, cwd: string)
    requires !TextTruthy(raw.outputDir) && !NumTruthy(raw.height)
    requires !TextTruthy(raw.backgroundColor) && !TextTruthy(raw.textColor)
    requires !NumTruthy(raw.fontSize)
    ensures ResolveOptions(raw, cwd) == ResolveOptions(NoOptions, cwd)
    ensures ResolveOptions(raw, cwd) ==
      Options(cwd + "/images", 100, "transparent", "#000000", 64)
  {
  }

  /** `Math.ceil` on the exact value of the measurement. */
  function Ceil(x: real): (n: int)
    ensures x <= n as real < x + 1.0
  {
    -((-x).Floor)
  }

  function Max(a: int, b: int): int { if a >= b then a else b }
  function Min(a: int, b: int): int { if a <= b then a else b }

  /** The text width plus the padding on both sides. */
  function PaddedWidth(textWidth: real): real {
    textWidth + (Config.Padding * 2) as real
  }

  /** The padded width, rounded up. */
  function ContentWidth(textWidth: real): int {
    Ceil(PaddedWidth(textWidth))
  }

  /** The image width: the content width clamped to the canvas bounds. */
  function OutputWidth(textWidth: real): (w: int)
    ensures Config.MinWidth <= w <= Config.MaxWidth
    ensures Config.MinWidth <= ContentWidth(textWidth) <= Config.MaxWidth ==> w == ContentWidth(textWidth)
    ensures ContentWidth(textWidth) < Config.MinWidth ==> w == Config.MinWidth
    ensures ContentWidth(textWidth) > Config.MaxWidth ==> w == Config.MaxWidth
  {
    Min(Max(ContentWidth(textWidth), Config.MinWidth), Config.MaxWidth)
  }

  /** The clamp in terms of the measured width itself: text that with its
      padding fits in the minimum width gets the minimum width, text that
      reaches the maximum gets the maximum, and text in between gets its
      padded width rounded up. */
  lemma OutputWidthByMeasurement(textWidth: real)
    ensures PaddedWidth(textWidth) <= Config.MinWidth as real ==> OutputWidth(textWidth) == Config.MinWidth
    ensures PaddedWidth(textWidth) >= Config.MaxWidth as real ==> OutputWidth(textWidth) == Config.MaxWidth
    ensures Config.MinWidth as real < PaddedWidth(textWidth) < Config.MaxWidth as real ==>
      OutputWidth(textWidth) as real >= PaddedWidth(textWidth) &&
      (OutputWidth(textWidth) - 1) as real < PaddedWidth(textWidth)
  {
    var c := ContentWidth(textWidth);
    assert PaddedWidth(textWidth) <= c as real < PaddedWidth(textWidth) + 1.0;
  }

  /** `name.replace(/\s+/g, '_')`, read one character at a time: a
      non-whitespace character is kept, and each maximal whitespace run emits
      its one underscore at its last character. */
  function Sanitize(s: string): string
    decreases |s|
  {
    if s == [] then []
    else if !IsWhitespace(s[0]) then [s[0]] + Sanitize(s[1..])
    else if |s| > 1 && IsWhitespace(s[1]) then Sanitize(s[1..])
    else "_" + Sanitize(s[1..])
  }

  /** The PNG file name written for a family. */
  function FileName(family: string): string {
    Sanitize(family) + ".png"
  }

  /** `path.join(outputDir, fileName)`. */
  function OutputPath(outputDir: string, family: string): string {
    JoinPath(outputDir, FileName(family))
  }

  lemma {:induction false} SanitizeNoWhitespace(s: string)
    ensures NoWhitespace(Sanitize(s))
    ensures |Sanitize(s)| <= |s|
    decreases |s|
  {
    if s != [] {
      SanitizeNoWhitespace(s[1..]);
      var r, rt := Sanitize(s), Sanitize(s[1..]);
      if !IsWhitespace(s[0]) || |s| == 1 || !IsWhitespace(s[1]) {
        var h: string := if IsWhitespace(s[0]) then "_" else [s[0]];
        assert r == h + rt;
        forall i | 0 <= i < |r| ensures !IsWhitespace(r[i]) {
          if i == 0 { assert r[0] == h[0]; } else { assert r[i] == rt[i - 1]; }
        }
      }
    }
  }

  /** A name without whitespace is its own stem. */
  lemma {:induction false} SanitizeIdentity(s: string)
    requires NoWhitespace(s)
    ensures Sanitize(s) == s
    decreases |s|
  {
    if s != [] {
      assert NoWhitespace(s[1..]) by {
        forall i | 0 <= i < |s| - 1 ensures !IsWhitespace(s[1..][i]) { assert s[1..][i] == s[i + 1]; }
      }
      SanitizeIdentity(s[1..]);
    }
  }

  /** Sanitising an already sanitised stem changes nothing. */
  lemma SanitizeIdempotent(s: string)
    ensures Sanitize(Sanitize(s)) == Sanitize(s)
  {
    SanitizeNoWhitespace(s);
    SanitizeIdentity(Sanitize(s));
  }

  /** A maximal whitespace run at the front collapses to one underscore. */
  lemma {:induction false} SanitizeCollapsesRun(w: string, b: string)
    requires |w| > 0 && forall i :: 0 <= i < |w| ==> IsWhitespace(w[i])
    requires b == [] || !IsWhitespace(b[0])
    ensures Sanitize(w + b) == "_" + Sanitize(b)
    decreases |w|
  {
    if |w| == 1 {
      assert (w + b)[1..] == b;
    } else {
      assert (w + b)[1..] == w[1..] + b;
      assert (w + b)[1] == w[1];
      SanitizeCollapsesRun(w[1..], b);
    }
  }

  /** A cut after a non-whitespace character splits the stem at the same
      place. */
  lemma {:induction false} SanitizeAppend(a: string, b: string)
    requires a == [] || !IsWhitespace(a[|a| - 1])
    ensures Sanitize(a + b) == Sanitize(a) + Sanitize(b)
    decreases |a|
  {
    if a == [] {
      assert a + b == b;
    } else {
      assert (a + b)[0] == a[0] && (a + b)[1..] == a[1..] + b;
      if |a| > 1 { assert (a + b)[1] == a[1]; }
      SanitizeAppend(a[1..], b);
      var x, y := Sanitize(a[1..]), Sanitize(b);
      if !IsWhitespace(a[0]) {
        assert Sanitize(a + b) == [a[0]] + (x + y);
        assert [a[0]] + (x + y) == ([a[0]] + x) + y;
      } else if IsWhitespace(a[1]) {
      } else {
        assert Sanitize(a + b) == "_" + (x + y);
        assert "_" + (x + y) == ("_" + x) + y;
      }
    }
  }

  /** The value of the `family` parameter of the stylesheet URL: spaces (and
      only spaces) become `+`, then the whole is passed through
      `encodeURIComponent`. */
  function UrlFamily(family: string): string {
    EncodeUriComponent(ReplaceChar(family, ' ', '+'))
  }

  /** The family value never contains a space or a literal `+`. */
  lemma UrlFamilyNoSpace(family: string)
    ensures InEncodedAlphabet(UrlFamily(family))
    ensures forall i :: 0 <= i < |UrlFamily(family)| ==> UrlFamily(family)[i] != ' ' && UrlFamily(family)[i] != '+'
  {
    EncodeAlphabet(ReplaceChar(family, ' ', '+'));
  }

  /** Percent-decoding an ASCII family's value gives back the family with its
      spaces turned into `+`. */
  lemma UrlFamilyRoundTrip(family: string)
    requires IsAscii(family)
    ensures PercentDecode(UrlFamily(family)) == ReplaceChar(family, ' ', '+')
  {
    DecodeEncode(ReplaceChar(family, ' ', '+'));
  }

  lemma ReplaceCharAppend(a: string, b: string, x: char, y: char)
    ensures ReplaceChar(a + b, x, y) == ReplaceChar(a, x, y) + ReplaceChar(b, x, y)
  {
    var l, r := ReplaceChar(a + b, x, y), ReplaceChar(a, x, y) + ReplaceChar(b, x, y);
    assert forall i :: 0 <= i < |l| ==> l[i] == r[i];
  }

  lemma UrlFamilyAround(a: string, c: char, b: string)
    ensures UrlFamily(a + [c] + b) ==
      UrlFamily(a) + EncodeUriComponent([if c == ' ' then '+' else c]) + UrlFamily(b)
  {
    ReplaceCharAppend(a + [c], b, ' ', '+');
    ReplaceCharAppend(a, [c], ' ', '+');
    var ra, rc, rb := ReplaceChar(a, ' ', '+'), ReplaceChar([c], ' ', '+'), ReplaceChar(b, ' ', '+');
    assert rc == [if c == ' ' then '+' else c];
    EncodeAppend(ra + rc, rb);
    EncodeAppend(ra, rc);
  }

  /** A space ends up as `%2B` and a tab, which the `/ /g` replace leaves
      alone, as `%09`. */
  lemma UrlFamilySeparators(a: string, b: string)
    ensures UrlFamily(a + " " + b) == UrlFamily(a) + "%2B" + UrlFamily(b)
    ensures UrlFamily(a + "\t" + b) == UrlFamily(a) + "%09" + UrlFamily(b)
  {
    UrlFamilyAround(a, ' ', b);
    UrlFamilyAround(a, '\t', b);
    assert EncodeUriComponent("+") == "%2B";
    assert EncodeUriComponent("\t") == "%09";
  }

  /** The family value cannot tell a space from a `+`. */
  lemma UrlFamilySpaceLikePlus(a: string, b: string)
    ensures UrlFamily(a + " " + b) == UrlFamily(a + "+" + b)
  {
    UrlFamilyAround(a, ' ', b);
    UrlFamilyAround(a, '+', b);
  }

  /** The CSS `background` value: the ternary on the transparent sentinel
      always yields the configured colour itself. */
  function BackgroundStyle(backgroundColor: string): (style: string)
    ensures style == backgroundColor
  {
    if backgroundColor == "transparent" then "transparent" else backgroundColor
  }

  datatype Size = Size(width: int, height: int)
  datatype Clip = Clip(x: int, y: int, width: int, height: int)
  datatype Screenshot = Screenshot(path: string, omitBackground: bool, clip: Clip)

  /** What `generatePreview` hands the engine for one font once the text has
      been measured: the stylesheet family value, the viewport and the
      screenshot request. */
  datatype RenderPlan = RenderPlan(stylesheetFamily: string, viewport: Size, screenshot: Screenshot)

  function PlanRender(o: Options, family: string, textWidth: real): (p: RenderPlan)
    ensures p.viewport.height == o.height
    ensures p.viewport.width == OutputWidth(textWidth)
    ensures Config.MinWidth <= p.viewport.width <= Config.MaxWidth
    ensures p.screenshot.clip == Clip(0, 0, p.viewport.width, p.viewport.height)
    ensures p.screenshot.omitBackground <==> o.backgroundColor == "transparent"
    ensures p.screenshot.path == OutputPath(o.outputDir, family)
    ensures p.stylesheetFamily == UrlFamily(family)
  {
    var width := OutputWidth(textWidth);
    RenderPlan(
      UrlFamily(family),
      Size(width, o.height),
      Screenshot(OutputPath(o.outputDir, family), o.backgroundColor == "transparent",
                 Clip(0, 0, width, o.height)))
  }

  /** The image height never depends on the measurement, and two renders of
      the same measurement have the same size. */
  lemma PlanSizeDependsOnlyOnWidth(o: Options, f1: string, f2: string, w1: real, w2: real)
    ensures PlanRender(o, f1, w1).viewport.height == PlanRender(o, f2, w2).viewport.height
    ensures ContentWidth(w1) == ContentWidth(w2) ==>
      PlanRender(o, f1, w1).viewport == PlanRender(o, f2, w2).viewport
  {
  }

  /** A run with default options captures with an alpha channel. */
  lemma DefaultRunOmitsBackground(cwd: string, family: string, textWidth: real)
    ensures PlanRender(ResolveOptions(NoOptions, cwd), family, textWidth).screenshot.omitBackground
  {
  }

  predicate IsAsciiLetter(c: char) { ('A' <= c <= 'Z') || ('a' <= c <= 'z') }

  /** From position `k` on, every character is an ASCII letter or a single
      space that follows a letter. */
  predicate PlainNameFrom(s: string, k: nat)
    decreases |s| - k
  {
    k >= |s| ||
    ((IsAsciiLetter(s[k]) || (s[k] == ' ' && 0 < k && IsAsciiLetter(s[k - 1]))) && PlainNameFrom(s, k + 1))
  }

  /** Whitespace only as single spaces, and no underscore. */
  predicate SingleSpaced(s: string) {
    forall j :: 0 <= j < |s| ==> SingleSpacedAt(s, j)
  }

  predicate SingleSpacedAt(s: string, j: int)
    requires 0 <= j < |s|
  {
    s[j] != '_' && (IsWhitespace(s[j]) ==> s[j] == ' ' && (j + 1 < |s| ==> !IsWhitespace(s[j + 1])))
  }

  lemma {:induction false} PlainNameSingleSpaced(s: string, k: nat)
    requires k <= |s| && PlainNameFrom(s, k)
    ensures SingleSpaced(s[k..])
    decreases |s| - k
  {
    if k < |s| {
      PlainNameSingleSpaced(s, k + 1);
      var t := s[k..];
      assert t[1..] == s[k + 1..];
      forall j | 0 <= j < |t| ensures SingleSpacedAt(t, j) {
        if j > 0 {
          assert SingleSpacedAt(t[1..], j - 1);
          assert t[j] == t[1..][j - 1];
          if j + 1 < |t| { assert t[j + 1] == t[1..][j]; }
        } else if k + 1 < |s| {
          assert IsAsciiLetter(s[k + 1]) || IsAsciiLetter(s[k]);
        }
      }
    }
  }

  lemma SingleSpacedTail(s: string)
    requires SingleSpaced(s) && s != []
    ensures SingleSpaced(s[1..])
  {
    var t := s[1..];
    forall j | 0 <= j < |t| ensures SingleSpacedAt(t, j) {
      assert SingleSpacedAt(s, j + 1);
      assert t[j] == s[j + 1];
      if j + 1 < |t| { assert t[j + 1] == s[j + 2]; }
    }
  }

  /** On single-spaced names the stem is the name with each space turned into
      an underscore. */
  lemma {:induction false} SanitizeSingleSpaced(s: string)
    requires SingleSpaced(s)
    ensures Sanitize(s) == ReplaceChar(s, ' ', '_')
    decreases |s|
  {
    if s != [] {
      SingleSpacedTail(s);
      SanitizeSingleSpaced(s[1..]);
      assert SingleSpacedAt(s, 0);
      assert ReplaceChar(s, ' ', '_') == [if s[0] == ' ' then '_' else s[0]] + ReplaceChar(s[1..], ' ', '_');
    }
  }

  lemma FileNamesOfSingleSpacedDiffer(s: string, t: string)
    requires SingleSpaced(s) && SingleSpaced(t) && s != t
    ensures FileName(s) != FileName(t)
  {
    SanitizeSingleSpaced(s);
    SanitizeSingleSpaced(t);
    var a, b := Sanitize(s), Sanitize(t);
    if |s| == |t| {
      var j :| 0 <= j < |s| && s[j] != t[j];
      assert SingleSpacedAt(s, j) && SingleSpacedAt(t, j);
      assert (a + ".png")[j] == a[j] && (b + ".png")[j] == b[j];
    } else {
      assert |a + ".png"| != |b + ".png"|;
    }
  }

  /** Each sample family is made of ASCII letters and single spaces. The
      check evaluates `PlainNameFrom` on string literals; the verifier
      unfolds such a call only a few positions deep, so each name carries
      stepping stones every four characters, and the list is checked five
      entries per lemma to keep each proof small. */
  lemma SampleFontPlain(i: int)
    requires 0 <= i < |Config.SampleFonts|
    ensures PlainNameFrom(Config.SampleFonts[i], 0)
  {
    if i < 5 { SampleFontPlain0To4(i); }
    else if i < 10 { SampleFontPlain5To9(i); }
    else if i < 15 { SampleFontPlain10To14(i); }
    else if i < 20 { SampleFontPlain15To19(i); }
    else { SampleFontPlain20To24(i); }
  }

  lemma SampleFontPlain0To4(i: int)
    requires 0 <= i < 5
    ensures PlainNameFrom(Config.SampleFonts[i], 0)
  {
    var S := Config.SampleFonts;
    if i == 0 { assert S[0] == "Roboto" && PlainNameFrom("Roboto", 4) && PlainNameFrom("Roboto", 0); }
    else if i == 1 { assert S[1] == "Open Sans" && PlainNameFrom("Open Sans", 8) && PlainNameFrom("Open Sans", 4) && PlainNameFrom("Open Sans", 0); }
    else if i == 2 { assert S[2] == "Lato" && PlainNameFrom("Lato", 0); }
    else if i == 3 { assert S[3] == "Montserrat" && PlainNameFrom("Montserrat", 8) && PlainNameFrom("Montserrat", 4) && PlainNameFrom("Montserrat", 0); }
    else { assert S[4] == "Poppins" && PlainNameFrom("Poppins", 4) && PlainNameFrom("Poppins", 0); }
  }

  lemma SampleFontPlain5To9(i: int)
    requires 5 <= i < 10
    ensures PlainNameFrom(Config.SampleFonts[i], 0)
  {
    var S := Config.SampleFonts;
    if i == 5 { assert S[5] == "Oswald" && PlainNameFrom("Oswald", 4) && PlainNameFrom("Oswald", 0); }
    else if i == 6 { assert S[6] == "Raleway" && PlainNameFrom("Raleway", 4) && PlainNameFrom("Raleway", 0); }
    else if i == 7 { assert S[7] == "Ubuntu" && PlainNameFrom("Ubuntu", 4) && PlainNameFrom("Ubuntu", 0); }
    else if i == 8 { assert S[8] == "Playfair Display" && PlainNameFrom("Playfair Display", 12) && PlainNameFrom("Playfair Display", 8) && PlainNameFrom("Playfair Display", 4) && PlainNameFrom("Playfair Display", 0); }
    else { assert S[9] == "Merriweather" && PlainNameFrom("Merriweather", 8) && PlainNameFrom("Merriweather", 4) && PlainNameFrom("Merriweather", 0); }
  }

  lemma SampleFontPlain10To14(i: int)
    requires 10 <= i < 15
    ensures PlainNameFrom(Config.SampleFonts[i], 0)
  {
    var S := Config.SampleFonts;
    if i == 10 { assert S[10] == "Nunito" && PlainNameFrom("Nunito", 4) && PlainNameFrom("Nunito", 0); }
    else if i == 11 { assert S[11] == "PT Sans" && PlainNameFrom("PT Sans", 4) && PlainNameFrom("PT Sans", 0); }
    else if i == 12 { assert S[12] == "Rubik" && PlainNameFrom("Rubik", 4) && PlainNameFrom("Rubik", 0); }
    else if i == 13 { assert S[13] == "Work Sans" && PlainNameFrom("Work Sans", 8) && PlainNameFrom("Work Sans", 4) && PlainNameFrom("Work Sans", 0); }
    else { assert S[14] == "Quicksand" && PlainNameFrom("Quicksand", 8) && PlainNameFrom("Quicksand", 4) && PlainNameFrom("Quicksand", 0); }
  }

  lemma SampleFontPlain15To19(i: int)
    requires 15 <= i < 20
    ensures PlainNameFrom(Config.SampleFonts[i], 0)
  {
    var S := Config.SampleFonts;
    if i == 15 { assert S[15] == "Inter" && PlainNameFrom("Inter", 4) && PlainNameFrom("Inter", 0); }
    else if i == 16 { assert S[16] == "Fira Sans" && PlainNameFrom("Fira Sans", 8) && PlainNameFrom("Fira Sans", 4) && PlainNameFrom("Fira Sans", 0); }
    else if i == 17 { assert S[17] == "Barlow" && PlainNameFrom("Barlow", 4) && PlainNameFrom("Barlow", 0); }
    else if i == 18 { assert S[18] == "Mulish" && PlainNameFrom("Mulish", 4) && PlainNameFrom("Mulish", 0); }
    else { assert S[19] == "Karla" && PlainNameFrom("Karla", 4) && PlainNameFrom("Karla", 0); }
  }

  lemma SampleFontPlain20To24(i: int)
    requires 20 <= i < 25
    ensures PlainNameFrom(Config.SampleFonts[i], 0)
  {
    var S := Config.SampleFonts;
    if i == 20 { assert S[20] == "Libre Baskerville" && PlainNameFrom("Libre Baskerville", 16) && PlainNameFrom("Libre Baskerville", 12) && PlainNameFrom("Libre Baskerville", 8) && PlainNameFrom("Libre Baskerville", 4) && PlainNameFrom("Libre Baskerville", 0); }
    else if i == 21 { assert S[21] == "Josefin Sans" && PlainNameFrom("Josefin Sans", 8) && PlainNameFrom("Josefin Sans", 4) && PlainNameFrom("Josefin Sans", 0); }
    else if i == 22 { assert S[22] == "Arimo" && PlainNameFrom("Arimo", 4) && PlainNameFrom("Arimo", 0); }
    else if i == 23 { assert S[23] == "Cabin" && PlainNameFrom("Cabin", 4) && PlainNameFrom("Cabin", 0); }
    else { assert S[24] == "Dancing Script" && PlainNameFrom("Dancing Script", 12) && PlainNameFrom("Dancing Script", 8) && PlainNameFrom("Dancing Script", 4) && PlainNameFrom("Dancing Script", 0); }
  }

  /** The 25 sample families are written to 25 distinct files. */
  lemma SampleFileNamesDistinct()
    ensures forall i, j :: 0 <= i < j < |Config.SampleFonts| ==>
      FileName(Config.SampleFonts[i]) != FileName(Config.SampleFonts[j])
  {
    Config.SampleFontsWellFormed();
    forall i, j | 0 <= i < j < |Config.SampleFonts|
      ensures FileName(Config.SampleFonts[i]) != FileName(Config.SampleFonts[j])
    {
      var s, t := Config.SampleFonts[i], Config.SampleFonts[j];
      SampleFontPlain(i);
      SampleFontPlain(j);
      PlainNameSingleSpaced(s, 0);
      PlainNameSingleSpaced(t, 0);
      assert s[0..] == s && t[0..] == t;
      FileNamesOfSingleSpacedDiffer(s, t);
    }
  }

  /** A run over the sample list writes 25 distinct files into any output
      directory. */
  lemma SampleOutputPathsDistinct(outputDir: string)
    ensures forall i, j :: 0 <= i < j < |Config.SampleFonts| ==>
      OutputPath(outputDir, Config.SampleFonts[i]) != OutputPath(outputDir, Config.SampleFonts[j])
  {
    SampleFileNamesDistinct();
    forall i, j | 0 <= i < j < |Config.SampleFonts|
      ensures OutputPath(outputDir, Config.SampleFonts[i]) != OutputPath(outputDir, Config.SampleFonts[j])
    {
      JoinPathInjective(outputDir, FileName(Config.SampleFonts[i]), FileName(Config.SampleFonts[j]));
    }
  }
}
