/** The `FontGenerator` class of src/generator.js: the render session
    (`initialize`, `close`, the lazy open in `generatePreview`) and the batch
    loop of `generateMultiple`. The rendering engine is an oracle: the outcome
    of launching it and the outcome of each render are parameters. */
module Generator {
  import opened Wrappers
  import opened Preview

  /** Opaque handles of the engine's browser and page. */
  datatype Browser = Browser(id: nat)
  datatype Page = Page(id: nat)

  /** What the engine calls of `initialize` do: the output directory or the
      browser cannot be created, the browser starts but `newPage` throws, or
      both start. */
  datatype Launch =
    | LaunchFailed(message: string)
    | NewPageFailed(browser: Browser, message: string)
    | Launched(browser: Browser, page: Page)

  /** What the engine does with one font's document: every call succeeds and
      the text measures `textWidth`, or one of them throws. */
  datatype Render = Measured(textWidth: real) | RenderError(message: string)

  /** An entry of `results.failed`. */
  datatype Failure = Failure(font: string, error: string)

  /** The `results` object of `generateMultiple`. */
  datatype Summary = Summary(success: seq<string>, failed: seq<Failure>)

  /** One call `onProgress(current, total, fontName, success)`. */
  datatype ProgressCall = ProgressCall(current: int, total: int, font: string, ok: bool)

  /** The `TypeError` thrown when a render reaches `this.page.setContent`
      with `page` still `null`. */
  const NullPageMessage: string := "Cannot read properties of null (reading 'setContent')"

  /** The value (or exception) of `generatePreview` on an open page. */
  function PreviewOutcome(o: Options, family: string, render: Render): Result<string> {
    match render
    case Measured(_) => Ok(OutputPath(o.outputDir, family))
    case RenderError(m) => Err(m)
  }

  /** The results of the batch loop over `names`, one render outcome per name:
      the summary of all but the last item, with the last item pushed onto
      `success` or `failed`. */
  function BatchSummary(o: Options, names: seq<string>, renders: seq<Render>): Summary
    requires |renders| == |names|
    decreases |names|
  {
    if names == [] then Summary([], [])
    else
      var n := |names|;
      var prev := BatchSummary(o, names[..n - 1], renders[..n - 1]);
      match PreviewOutcome(o, names[n - 1], renders[n - 1])
      case Ok(path) => prev.(success := prev.success + [path])
      case Err(m) => prev.(failed := prev.failed + [Failure(names[n - 1], m)])
  }

  /** The progress calls of a batch: one per index, in index order. */
  function ProgressLog(names: seq<string>, renders: seq<Render>): (calls: seq<ProgressCall>)
    requires |renders| == |names|
    ensures |calls| == |names|
  {
    seq(|names|, i requires 0 <= i < |names| =>
      ProgressCall(i + 1, |names|, names[i], renders[i].Measured?))
  }

  /** Extending the batch by one item pushes that item's outcome. */
  lemma BatchSummaryStep(o: Options, names: seq<string>, renders: seq<Render>, i: int)
    requires |renders| == |names| && 0 <= i < |names|
    ensures var prev := BatchSummary(o, names[..i], renders[..i]);
      BatchSummary(o, names[..i + 1], renders[..i + 1]) ==
        match PreviewOutcome(o, names[i], renders[i])
        case Ok(path) => prev.(success := prev.success + [path])
        case Err(m) => prev.(failed := prev.failed + [Failure(names[i], m)])
  {
    assert names[..i + 1][..i] == names[..i];
    assert renders[..i + 1][..i] == renders[..i];
  }

  lemma ProgressLogStep(names: seq<string>, renders: seq<Render>, i: int)
    requires |renders| == |names| && 0 <= i < |names|
    ensures ProgressLog(names, renders)[..i + 1] ==
      ProgressLog(names, renders)[..i] + [ProgressCall(i + 1, |names|, names[i], renders[i].Measured?)]
  {
  }

  /** The positions, in increasing order, whose render succeeded (`ok`) or
      failed (`!ok`). */
  function Positions(renders: seq<Render>, ok: bool): seq<nat>
    decreases |renders|
  {
    if renders == [] then []
    else
      var n := |renders|;
      Positions(renders[..n - 1], ok) + if renders[n - 1].Measured? == ok then [n - 1] else []
  }

  /** `Positions` lists valid positions in strictly increasing order. */
  lemma {:induction false} PositionsOrdered(renders: seq<Render>, ok: bool)
    ensures var p := Positions(renders, ok);
      forall k, l :: 0 <= k < l < |p| ==> p[k] < p[l] < |renders|
    decreases |renders|
  {
    if renders != [] {
      var n := |renders|;
      var rn := renders[..n - 1];
      PositionsOrdered(rn, ok);
      var p0, p := Positions(rn, ok), Positions(renders, ok);
      assert forall k :: 0 <= k < |p0| ==> p0[k] < n - 1 by {
        forall k | 0 <= k < |p0| ensures p0[k] < n - 1 {
          PositionsBounded(rn, ok, k);
        }
      }
      assert p == p0 + (if renders[n - 1].Measured? == ok then [n - 1] else []);
    }
  }

  lemma {:induction false} PositionsBounded(renders: seq<Render>, ok: bool, k: int)
    requires 0 <= k < |Positions(renders, ok)|
    ensures Positions(renders, ok)[k] < |renders|
    decreases |renders|
  {
    var n := |renders|;
    var p0 := Positions(renders[..n - 1], ok);
    if k < |p0| {
      PositionsBounded(renders[..n - 1], ok, k);
    }
  }

  /** `Positions` holds exactly the positions whose outcome matches `ok`. */
  lemma {:induction false} PositionsMembership(renders: seq<Render>, ok: bool)
    ensures forall i :: i in Positions(renders, ok) <==> 0 <= i < |renders| && renders[i].Measured? == ok
    decreases |renders|
  {
    if renders != [] {
      var n := |renders|;
      var rn := renders[..n - 1];
      PositionsMembership(rn, ok);
      assert forall i :: 0 <= i < n - 1 ==> rn[i] == renders[i];
      assert Positions(renders, ok) == Positions(rn, ok) + (if renders[n - 1].Measured? == ok then [n - 1] else []);
    }
  }

  /** Each position is in exactly one of the two lists. */
  lemma {:induction false} PositionsPartition(renders: seq<Render>)
    ensures |Positions(renders, true)| + |Positions(renders, false)| == |renders|
    decreases |renders|
  {
    if renders != [] {
      PositionsPartition(renders[..|renders| - 1]);
    }
  }

  /** Every item lands in exactly one of the two lists. */
  lemma {:induction false} BatchCounts(o: Options, names: seq<string>, renders: seq<Render>)
    requires |renders| == |names|
    ensures |BatchSummary(o, names, renders).success| == |Positions(renders, true)|
    ensures |BatchSummary(o, names, renders).failed| == |Positions(renders, false)|
    ensures |BatchSummary(o, names, renders).success| + |BatchSummary(o, names, renders).failed| == |names|
    decreases |names|
  {
    PositionsPartition(renders);
    if names != [] {
      var n := |names|;
      BatchCounts(o, names[..n - 1], renders[..n - 1]);
    }
  }

  /** `success` holds the output paths of the items that rendered, in input
      order. */
  lemma {:induction false} BatchSuccessListing(o: Options, names: seq<string>, renders: seq<Render>)
    requires |renders| == |names|
    ensures var s, p := BatchSummary(o, names, renders).success, Positions(renders, true);
      |s| == |p| &&
      forall k :: 0 <= k < |s| ==> p[k] < |names| && s[k] == OutputPath(o.outputDir, names[p[k]])
    decreases |names|
  {
    if names != [] {
      var n := |names|;
      var pn, rn := names[..n - 1], renders[..n - 1];
      BatchSuccessListing(o, pn, rn);
      var s0, p0 := BatchSummary(o, pn, rn).success, Positions(rn, true);
      var s, p := BatchSummary(o, names, renders).success, Positions(renders, true);
      var ok := renders[n - 1].Measured?;
      assert p == p0 + (if ok then [n - 1] else []);
      assert s == s0 + (if ok then [OutputPath(o.outputDir, names[n - 1])] else []);
      forall k | 0 <= k < |s| ensures p[k] < n && s[k] == OutputPath(o.outputDir, names[p[k]]) {
        if k < |s0| {
          assert p[k] == p0[k] && s[k] == s0[k] && pn[p0[k]] == names[p0[k]];
        }
      }
    }
  }

  /** `failed` holds, in input order, each item that threw with its message. */
  lemma {:induction false} BatchFailedListing(o: Options, names: seq<string>, renders: seq<Render>)
    requires |renders| == |names|
    ensures var f, p := BatchSummary(o, names, renders).failed, Positions(renders, false);
      |f| == |p| &&
      forall k :: 0 <= k < |f| ==>
        p[k] < |names| && renders[p[k]].RenderError? && f[k] == Failure(names[p[k]], renders[p[k]].message)
    decreases |names|
  {
    if names != [] {
      var n := |names|;
      var pn, rn := names[..n - 1], renders[..n - 1];
      BatchFailedListing(o, pn, rn);
      var f0, p0 := BatchSummary(o, pn, rn).failed, Positions(rn, false);
      var f, p := BatchSummary(o, names, renders).failed, Positions(renders, false);
      var bad := renders[n - 1].RenderError?;
      assert p == p0 + (if bad then [n - 1] else []);
      assert f == f0 + (if bad then [Failure(names[n - 1], renders[n - 1].message)] else []);
      forall k | 0 <= k < |f|
        ensures p[k] < n && renders[p[k]].RenderError? && f[k] == Failure(names[p[k]], renders[p[k]].message)
      {
        if k < |f0| {
          assert p[k] == p0[k] && f[k] == f0[k] && pn[p0[k]] == names[p0[k]] && rn[p0[k]] == renders[p0[k]];
        }
      }
    }
  }

  /** Each progress call reports `ok` exactly when its item went to `success`. */
  lemma ProgressAgreesWithSummary(names: seq<string>, renders: seq<Render>)
    requires |renders| == |names|
    ensures forall i :: 0 <= i < |names| ==>
      ProgressLog(names, renders)[i] == ProgressCall(i + 1, |names|, names[i], i in Positions(renders, true))
  {
    PositionsMembership(renders, true);
  }

  /** The output paths of a list of names, in order. */
  function OutputPaths(o: Options, names: seq<string>): (paths: seq<string>)
    ensures |paths| == |names|
    ensures forall i :: 0 <= i < |names| ==> paths[i] == OutputPath(o.outputDir, names[i])
  {
    if names == [] then [] else [OutputPath(o.outputDir, names[0])] + OutputPaths(o, names[1..])
  }

  /** When the render of item `k` alone throws, the batch still writes every
      other item, in order, and records exactly one failure. */
  lemma {:induction false} FailureIsolation(o: Options, names: seq<string>, renders: seq<Render>, k: int)
    requires |renders| == |names| && 0 <= k < |names|
    requires renders[k].RenderError?
    requires forall i :: 0 <= i < |renders| && i != k ==> renders[i].Measured?
    ensures BatchSummary(o, names, renders).failed == [Failure(names[k], renders[k].message)]
    ensures BatchSummary(o, names, renders).success == OutputPaths(o, names[..k] + names[k + 1..])
    decreases |names|
  {
    var n := |names|;
    var pn, rn := names[..n - 1], renders[..n - 1];
    if k == n - 1 {
      FailureIsolationAtEnd(o, names, renders);
    } else {
      assert forall i :: 0 <= i < n - 1 ==> rn[i] == renders[i];
      FailureIsolation(o, pn, rn, k);
      FailureIsolationExtend(o, names, renders, k);
    }
  }

  /** The step of `FailureIsolation` past the failing item: one more
      successful item adds its path and nothing else. */
  lemma FailureIsolationExtend(o: Options, names: seq<string>, renders: seq<Render>, k: int)
    requires |renders| == |names| && 0 <= k < |names| - 1
    requires renders[k].RenderError? && renders[|names| - 1].Measured?
    requires var n := |names|; var prev := BatchSummary(o, names[..n - 1], renders[..n - 1]);
      prev.failed == [Failure(names[k], renders[k].message)] &&
      prev.success == OutputPaths(o, names[..n - 1][..k] + names[..n - 1][k + 1..])
    ensures BatchSummary(o, names, renders).failed == [Failure(names[k], renders[k].message)]
    ensures BatchSummary(o, names, renders).success == OutputPaths(o, names[..k] + names[k + 1..])
  {
    var n := |names|;
    var pn := names[..n - 1];
    var rest := pn[..k] + pn[k + 1..];
    var prev := BatchSummary(o, pn, renders[..n - 1]);
    assert BatchSummary(o, names, renders) ==
      prev.(success := prev.success + [OutputPath(o.outputDir, names[n - 1])]);
    OutputPathsSnoc(o, rest, names[n - 1]);
    RemoveThenAppendLast(names, k);
  }

  /** Removing item `k` commutes with appending a later last item. */
  lemma RemoveThenAppendLast(s: seq<string>, k: int)
    requires 0 <= k < |s| - 1
    ensures var p := s[..|s| - 1]; p[..k] + p[k + 1..] + [s[|s| - 1]] == s[..k] + s[k + 1..]
  {
    var p := s[..|s| - 1];
    assert p[..k] == s[..k];
    assert p[k + 1..] + [s[|s| - 1]] == s[k + 1..];
  }

  lemma FailureIsolationAtEnd(o: Options, names: seq<string>, renders: seq<Render>)
    requires |renders| == |names| > 0
    requires renders[|names| - 1].RenderError?
    requires forall i :: 0 <= i < |renders| - 1 ==> renders[i].Measured?
    ensures BatchSummary(o, names, renders) ==
      Summary(OutputPaths(o, names[..|names| - 1]), [Failure(names[|names| - 1], renders[|names| - 1].message)])
  {
    var n := |names|;
    var rn := renders[..n - 1];
    assert forall i :: 0 <= i < n - 1 ==> rn[i] == renders[i];
    AllMeasured(o, names[..n - 1], rn);
  }

  lemma OutputPathsSnoc(o: Options, names: seq<string>, x: string)
    ensures OutputPaths(o, names + [x]) == OutputPaths(o, names) + [OutputPath(o.outputDir, x)]
  {
  }

  /** With every render succeeding, `success` is every output path and
      `failed` is empty. */
  lemma {:induction false} AllMeasured(o: Options, names: seq<string>, renders: seq<Render>)
    requires |renders| == |names|
    requires forall i :: 0 <= i < |renders| ==> renders[i].Measured?
    ensures BatchSummary(o, names, renders) == Summary(OutputPaths(o, names), [])
    decreases |names|
  {
    if names != [] {
      var n := |names|;
      AllMeasured(o, names[..n - 1], renders[..n - 1]);
      assert names == names[..n - 1] + [names[n - 1]];
      OutputPathsSnoc(o, names[..n - 1], names[n - 1]);
    }
  }

  class FontGenerator {
    const options: Options
    var browser: Option<Browser>
    var page: Option<Page>

    /** A page is only ever held together with its browser. */
    ghost predicate Valid()
      reads this
    {
      browser.None? ==> page.None?
    }

    /** `new FontGenerator(options)`; `cwd` stands for `process.cwd()`. */
    constructor (raw: RawOptions, cwd: string)
      ensures options == ResolveOptions(raw, cwd)
      ensures browser == None && page == None
      ensures Valid()
    {
      options := ResolveOptions(raw, cwd);
      browser := None;
      page := None;
    }

    /** `initialize`: launches a browser and opens a page, unconditionally.
        A browser already held is overwritten, not closed; when `newPage`
        throws, the new browser is kept and `page` keeps its old value. */
    method Initialize(launch: Launch) returns (status: Result<()>)
      requires Valid()
      modifies this
      ensures Valid()
      ensures launch.Launched? ==>
        status == Ok(()) && browser == Some(launch.browser) && page == Some(launch.page)
      ensures launch.NewPageFailed? ==>
        status == Err(launch.message) && browser == Some(launch.browser) && page == old(page)
      ensures launch.LaunchFailed? ==> status == Err(launch.message) && unchanged(this)
    {
      match launch
      case LaunchFailed(m) =>
        status := Err(m);
      case NewPageFailed(b, m) =>
        browser := Some(b);
        status := Err(m);
      case Launched(b, p) =>
        browser := Some(b);
        page := Some(p);
        status := Ok(());
    }

    /** `close`: releases the session when a browser is held; otherwise it
        changes nothing, so a second call is a no-op. */
    method Close()
      requires Valid()
      modifies this
      ensures Valid()
      ensures browser == None && page == None
      ensures old(browser).None? ==> unchanged(this)
    {
      if browser.Some? {
        browser := None;
        page := None;
      }
    }

    /** `generatePreview`: opens the session first only when no browser is
        held, then renders one font on the page. The engine's part is the
        `render` outcome; on success the render plan is what was handed to
        the engine. */
    method GeneratePreview(family: string, launch: Launch, render: Render)
      returns (r: Result<string>, plan: Option<RenderPlan>)
      requires Valid()
      modifies this
      ensures Valid()
      ensures old(browser).Some? ==> unchanged(this)
      ensures old(browser).None? && !launch.LaunchFailed? ==> browser == Some(launch.browser)
      ensures old(browser).None? && !launch.Launched? ==> page == old(page)
      ensures old(browser).None? && launch.Launched? ==> page == Some(launch.page)
      ensures old(browser).None? && launch.LaunchFailed? ==> unchanged(this)
      ensures old(browser).None? && !launch.Launched? ==> r == Err(launch.message) && plan == None
      ensures (old(browser).Some? || launch.Launched?) && page.None? ==>
        r == Err(NullPageMessage) && plan == None
      ensures (old(browser).Some? || launch.Launched?) && page.Some? ==>
        r == PreviewOutcome(options, family, render) &&
        plan == (if render.Measured? then Some(PlanRender(options, family, render.textWidth)) else None)
    {
      if browser.None? {
        var status := Initialize(launch);
        if status.Err? {
          return Err(status.message), None;
        }
      }
      if page.None? {
        return Err(NullPageMessage), None;
      }
      match render
      case Measured(w) =>
        plan := Some(PlanRender(options, family, w));
        r := Ok(plan.value.screenshot.path);
      case RenderError(m) =>
        r, plan := Err(m), None;
    }

    /** `generateMultiple`: opens the session, renders every font in order,
        isolating each failure, reports progress when a callback is given, and
        closes the session. `renders[i]` is the engine's outcome for
        `fontFamilies[i]`; the callback is assumed not to throw. When the
        session cannot be opened the exception escapes, no item is rendered
        and `close` is not reached. */
    method GenerateMultiple(fontFamilies: seq<string>, reportProgress: bool, launch: Launch, renders: seq<Render>)
      returns (r: Result<Summary>, calls: seq<ProgressCall>)
      requires Valid()
      requires |renders| == |fontFamilies|
      modifies this
      ensures Valid()
      ensures launch.Launched? ==>
        && r == Ok(BatchSummary(options, fontFamilies, renders))
        && calls == (if reportProgress then ProgressLog(fontFamilies, renders) else [])
        && browser == None && page == None
      ensures launch.NewPageFailed? ==>
        r == Err(launch.message) && calls == [] &&
        browser == Some(launch.browser) && page == old(page)
      ensures launch.LaunchFailed? ==>
        r == Err(launch.message) && calls == [] && unchanged(this)
    {
      var success: seq<string> := [];
      var failed: seq<Failure> := [];
      calls := [];
      var status := Initialize(launch);
      if status.Err? {
        return Err(status.message), [];
      }
      var n := |fontFamilies|;
      for i := 0 to n
        invariant browser == Some(launch.browser) && page == Some(launch.page)
        invariant Summary(success, failed) == BatchSummary(options, fontFamilies[..i], renders[..i])
        invariant calls == if reportProgress then ProgressLog(fontFamilies, renders)[..i] else []
      {
        var family := fontFamilies[i];
        var out, _ := GeneratePreview(family, launch, renders[i]);
        BatchSummaryStep(options, fontFamilies, renders, i);
        ProgressLogStep(fontFamilies, renders, i);
        match out
        case Ok(path) =>
          success := success + [path];
          if reportProgress {
            calls := calls + [ProgressCall(i + 1, n, family, true)];
          }
        case Err(m) =>
          failed := failed + [Failure(family, m)];
          if reportProgress {
            calls := calls + [ProgressCall(i + 1, n, family, false)];
          }
      }
      Close();
      assert fontFamilies[..n] == fontFamilies && renders[..n] == renders;
      r := Ok(Summary(success, failed));
    }
  }
}
