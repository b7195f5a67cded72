/**
 * compressPM: when the user ends the day early, the PM segment is rebuilt
 * into a short fixed timeline that fits before the earlier end.
 *
 * The PM blocks (carryover logs excepted) are replaced by: the first PM
 * quick win, a Chart Sprint holding the chart work, a Results Sweep of at
 * most 30 minutes when at least 30 minutes still remain after it, a Calls
 * Burst of at most 25 minutes when at least 25 minutes still remain after
 * it, and a 15-minute Wind-down ending exactly at the limit. Every other PM
 * title becomes one carryover log at the limit. The engine places the quick
 * win twice (a copy starts the timeline and the original is put in front of
 * it again), and the Chart Sprint's 30-minute floor may run past the limit;
 * both are modelled as written.
 */
module EngineCompress {
  import opened Common
  import opened Clock
  import opened EngineTypes
  import opened EngineBuild
  import opened EngineRepair

  // ---------------------------------------------------------------- the limit

  /** The PM segment's start and the early limit the day is compressed to. */
  datatype Cut = Cut(start: int, limit: int)

  /**
   * Compression applies only with an end time, a PM segment, and a limit
   * (the earlier of the PM end and the end time) after the PM start. An end
   * time that does not read as a clock time is treated as absent here.
   */
  function CutOf(meta: seq<Span>, userEndTime: string): (r: Option<Cut>)
    ensures r.None? <==>
      userEndTime == "" || Lookup(meta, "PM").None? || ParseClock(userEndTime).None? ||
      Min(Lookup(meta, "PM").value.end, ParseClock(userEndTime).value) <= Lookup(meta, "PM").value.start
    ensures r.Some? ==>
      r.value.start == Lookup(meta, "PM").value.start && r.value.start < r.value.limit &&
      r.value.limit <= Lookup(meta, "PM").value.end && r.value.limit <= ParseClock(userEndTime).value &&
      (r.value.limit == Lookup(meta, "PM").value.end || r.value.limit == ParseClock(userEndTime).value)
  {
    if userEndTime == "" then None
    else match Lookup(meta, "PM")
      case None => None
      case Some(sp) =>
        match ParseClock(userEndTime)
        case None => None
        case Some(u) =>
          if Min(sp.end, u) <= sp.start then None else Some(Cut(sp.start, Min(sp.end, u)))
  }

  // ---------------------------------------------------------------- what the PM blocks hold

  /** `pmBlocks.find(block => block.kind === 'QuickWin')` */
  function FirstQuickWin(pm: seq<Block>): (r: Option<Block>)
    ensures r.None? <==> forall b :: b in pm ==> b.kind != KindQuickWin
    ensures r.Some? ==> exists i :: 0 <= i < |pm| && pm[i] == r.value && r.value.kind == KindQuickWin &&
                                    forall j :: 0 <= j < i ==> pm[j].kind != KindQuickWin
    decreases |pm|
  {
    if pm == [] then None
    else if pm[0].kind == KindQuickWin then Some(pm[0])
    else
      var r := FirstQuickWin(pm[1..]);
      assert forall b :: b in pm[1..] ==> b in pm;
      if r.Some? then
        ghost var i :| 0 <= i < |pm[1..]| && pm[1..][i] == r.value && r.value.kind == KindQuickWin &&
                       forall j :: 0 <= j < i ==> pm[1..][j].kind != KindQuickWin;
        assert pm[i + 1] == r.value;
        r
      else r
  }

  /** The minutes of the blocks whose title matches the pattern, case-insensitively, summed. */
  function MinutesMatching(pm: seq<Block>, pattern: string): int
    decreases |pm|
  {
    if pm == [] then 0
    else
      var b := pm[|pm| - 1];
      MinutesMatching(pm[..|pm| - 1], pattern) + (if ContainsCI(b.title, pattern) then b.minutes else 0)
  }

  /** Blocks whose titles match no pattern add nothing to the sum. */
  lemma {:induction false} MinutesMatchingNone(pm: seq<Block>, pattern: string)
    requires forall b :: b in pm ==> !ContainsCI(b.title, pattern)
    ensures MinutesMatching(pm, pattern) == 0
    decreases |pm|
  {
    if pm != [] {
      assert forall b :: b in pm[..|pm| - 1] ==> b in pm;
      MinutesMatchingNone(pm[..|pm| - 1], pattern);
    }
  }

  /** With non-negative minutes the sum is at least every matching block's minutes. */
  lemma {:induction false} MinutesMatchingBound(pm: seq<Block>, pattern: string, k: nat)
    requires forall b :: b in pm ==> b.minutes >= 0
    requires k < |pm| && ContainsCI(pm[k].title, pattern)
    ensures MinutesMatching(pm, pattern) >= pm[k].minutes
    decreases |pm|
  {
    var n := |pm| - 1;
    assert forall b :: b in pm[..n] ==> b in pm;
    MinutesMatchingNonNegative(pm[..n], pattern);
    if k < n {
      MinutesMatchingBound(pm[..n], pattern, k);
    }
  }

  lemma {:induction false} MinutesMatchingNonNegative(pm: seq<Block>, pattern: string)
    requires forall b :: b in pm ==> b.minutes >= 0
    ensures MinutesMatching(pm, pattern) >= 0
    decreases |pm|
  {
    if pm != [] {
      assert forall b :: b in pm[..|pm| - 1] ==> b in pm;
      MinutesMatchingNonNegative(pm[..|pm| - 1], pattern);
    }
  }

  // ---------------------------------------------------------------- dropped titles

  /** A title the first pass never drops: chart, result, call, wind-down or sign-off work. */
  predicate Reserved(t: string)
  {
    ContainsCI(t, "chart") || ContainsCI(t, "result") || ContainsCI(t, "call") ||
    IsWindDownTitle(t) || IsSignOffTitle(t)
  }

  /** Which titles a pass over the PM blocks leaves alone. */
  datatype Keep = ReservedTitles | PreservedTitles(titles: set<string>)

  predicate Keeps(keep: Keep, t: string)
  {
    match keep
    case ReservedTitles => Reserved(t)
    case PreservedTitles(titles) => t in titles
  }

  /** `Set.add` on an insertion-ordered set of titles. */
  function AddTitle(ts: seq<string>, t: string): seq<string>
  {
    if t in ts then ts else ts + [t]
  }

  /**
   * The dropped set after a pass over the PM blocks that marks the title of
   * every block that is not a quick win and whose title is not kept.
   */
  function Marked(pm: seq<Block>, keep: Keep, ts: seq<string>): seq<string>
    decreases |pm|
  {
    if pm == [] then ts
    else
      var b := pm[|pm| - 1];
      var prev := Marked(pm[..|pm| - 1], keep, ts);
      if b.kind == KindQuickWin || Keeps(keep, b.title) then prev else AddTitle(prev, b.title)
  }

  /** A title some PM block that is not a quick win brings to the pass, and the pass does not keep. */
  predicate MarkedBy(pm: seq<Block>, keep: Keep, t: string)
  {
    exists b :: b in pm && b.kind != KindQuickWin && !Keeps(keep, b.title) && b.title == t
  }

  /**
   * A pass keeps the titles already dropped, in their order, adds exactly the
   * titles it does not keep, and never adds a title twice.
   */
  lemma {:induction false} MarkedSpec(pm: seq<Block>, keep: Keep, ts: seq<string>)
    requires NoDuplicates(ts)
    ensures NoDuplicates(Marked(pm, keep, ts))
    ensures |Marked(pm, keep, ts)| >= |ts| && Marked(pm, keep, ts)[..|ts|] == ts
    ensures forall t :: t in Marked(pm, keep, ts) <==> t in ts || MarkedBy(pm, keep, t)
    decreases |pm|
  {
    if pm != [] {
      var n := |pm| - 1;
      var b := pm[n];
      var prev := Marked(pm[..n], keep, ts);
      MarkedSpec(pm[..n], keep, ts);
      assert forall c :: c in pm[..n] ==> c in pm;
      assert forall c :: c in pm ==> c in pm[..n] || c == b;
      forall t | MarkedBy(pm[..n], keep, t) ensures MarkedBy(pm, keep, t) {
        var c :| c in pm[..n] && c.kind != KindQuickWin && !Keeps(keep, c.title) && c.title == t;
        assert c in pm;
      }
      if !(b.kind == KindQuickWin || Keeps(keep, b.title)) {
        assert MarkedBy(pm, keep, b.title);
        if b.title !in prev {
          assert (prev + [b.title])[..|ts|] == prev[..|ts|];
        }
      }
    }
  }

  /** `for (const block of pmBlocks) { …; markDropped(block.title); }` */
  method MarkDropped(pm: seq<Block>, keep: Keep, dropped: seq<string>) returns (dropped': seq<string>)
    ensures dropped' == Marked(pm, keep, dropped)
  {
    dropped' := dropped;
    var i := 0;
    while i < |pm|
      invariant 0 <= i <= |pm|
      invariant dropped' == Marked(pm[..i], keep, dropped)
    {
      assert pm[..i + 1][..i] == pm[..i];
      var block := pm[i];
      if block.kind != KindQuickWin && !Keeps(keep, block.title) {
        if block.title !in dropped' {
          dropped' := dropped' + [block.title];
        }
      }
      i := i + 1;
    }
    assert pm[..i] == pm;
  }

  // ---------------------------------------------------------------- the timeline

  /** The timeline under construction and the cursor after its last block. */
  datatype Plan = Plan(timeline: seq<Block>, cursor: int)

  /** A block joins the timeline and the cursor moves to its end. */
  function Push(p: Plan, b: Block): Plan
  {
    Plan(p.timeline + [b], b.endMin)
  }

  /** `(timeline.at(-1)?.order ?? 1) + 1` */
  function NextOrder(tl: seq<Block>): int
  {
    (if tl == [] then 1 else Last(tl).order) + 1
  }

  function ChartSprint(minutes: int, at: int, order: int): Block
  {
    Block("Chart Sprint", minutes, "Task", "PM", 5, ["charts"], "tasks", at, at + minutes, order)
  }

  function ResultsSweep(minutes: int, at: int, order: int): Block
  {
    Block("Results Sweep", minutes, KindParallel, "PM", 4, ["parallel"], "Results", at, at + minutes, order)
  }

  function CallsBurst(minutes: int, at: int, order: int): Block
  {
    Block("Calls Burst", minutes, KindParallel, "PM", 3, ["parallel"], "Calls", at, at + minutes, order)
  }

  /** The closing block: `min(max(limit - cursor, 15), 15)` minutes, ending at the limit. */
  function ClosingWindDown(limit: int, cursor: int, order: int): Block
  {
    var minutes := Min(Max(limit - cursor, 15), 15);
    Block("Wind-down", minutes, KindWindDown, "PM", 2, ["transition"], "auto", Max(limit - minutes, cursor), limit, order)
  }

  /** A copy of the quick win opens the timeline, and the cursor moves to its end. */
  function StartPlan(quickWin: Option<Block>, pmStart: int): Plan
  {
    if quickWin.Some? then Plan([quickWin.value], quickWin.value.endMin) else Plan([], pmStart)
  }

  function ChartMinutes(chart: int, cursor: int, limit: int): int
  {
    Min(chart, Max(limit - cursor - 45, 30))
  }

  /** The Chart Sprint, when there are chart minutes; it follows the quick win's order, or is 1. */
  function WithChart(p: Plan, chart: int, quickWin: Option<Block>, limit: int): Plan
  {
    if chart <= 0 then p
    else Push(p, ChartSprint(ChartMinutes(chart, p.cursor, limit), p.cursor,
                             if quickWin.Some? then quickWin.value.order + 1 else 1))
  }

  function ResultsMinutes(results: int, cursor: int, limit: int): int
  {
    Min(Min(results, 30), limit - cursor - 30)
  }

  /** The Results Sweep, only while more than 30 minutes remain. */
  function WithResults(p: Plan, results: int, limit: int): Plan
  {
    if results > 0 && p.cursor < limit - 30 then
      Push(p, ResultsSweep(ResultsMinutes(results, p.cursor, limit), p.cursor, NextOrder(p.timeline)))
    else p
  }

  function CallMinutes(calls: int, cursor: int, limit: int): int
  {
    Min(Min(calls, 25), limit - cursor - 25)
  }

  /** The Calls Burst, only while more than 25 minutes remain. */
  function WithCalls(p: Plan, calls: int, limit: int): Plan
  {
    if calls > 0 && p.cursor < limit - 25 then
      Push(p, CallsBurst(CallMinutes(calls, p.cursor, limit), p.cursor, NextOrder(p.timeline)))
    else p
  }

  /** The four stages before the Wind-down. */
  function Staged(quickWin: Option<Block>, chart: int, results: int, calls: int, pmStart: int, limit: int): Plan
  {
    WithCalls(WithResults(WithChart(StartPlan(quickWin, pmStart), chart, quickWin, limit), results, limit), calls, limit)
  }

  /** The rebuilt PM timeline, closed by the Wind-down, before the quick win is put in front of it again. */
  function Timeline(quickWin: Option<Block>, chart: int, results: int, calls: int, pmStart: int, limit: int): seq<Block>
  {
    var p := Staged(quickWin, chart, results, calls, pmStart, limit);
    p.timeline + [ClosingWindDown(limit, p.cursor, NextOrder(p.timeline))]
  }

  /** The titles the timeline preserves. */
  function Titles(tl: seq<Block>): (r: set<string>)
    ensures forall t :: t in r <==> exists b :: b in tl && b.title == t
  {
    set b | b in tl :: b.title
  }

  /** One zero-minute carryover log per dropped title, at the limit. */
  function DroppedLogs(titles: seq<string>, limit: int): (r: seq<Block>)
    ensures |r| == |titles|
    ensures forall k :: 0 <= k < |titles| ==> r[k] == CarryoverOf(titles[k], 1, "tasks", limit, "PM")
  {
    seq(|titles|, k requires 0 <= k < |titles| => CarryoverOf(titles[k], 1, "tasks", limit, "PM"))
  }

  function Lead(quickWin: Option<Block>): seq<Block>
  {
    if quickWin.Some? then [quickWin.value] else []
  }

  // ---------------------------------------------------------------- compressPM

  /** What compression puts in place of the PM blocks. */
  datatype Rebuilt = Rebuilt(quickWin: Option<Block>, timeline: seq<Block>, dropped: seq<string>)

  function RebuildPM(pm: seq<Block>, cut: Cut): Rebuilt
  {
    var quickWin := FirstQuickWin(pm);
    var tl := Timeline(quickWin, MinutesMatching(pm, "chart"), MinutesMatching(pm, "result"),
                       MinutesMatching(pm, "call"), cut.start, cut.limit);
    Rebuilt(quickWin, tl, Marked(pm, PreservedTitles(Titles(tl)), Marked(pm, ReservedTitles, [])))
  }

  /**
   * compressPM: the blocks outside the PM schedule in their order, then the
   * quick win, the rebuilt timeline, and one carryover log per dropped title.
   */
  function Compress(blocks: seq<Block>, meta: seq<Span>, userEndTime: string): seq<Block>
  {
    var cut := CutOf(meta, userEndTime);
    var pm := Entries(blocks, "PM");
    if cut.None? || pm == [] then blocks
    else Splice(blocks, RebuildPM(pm, cut.value), cut.value.limit)
  }

  /** The blocks outside the PM schedule, the quick win and the timeline, then the logs. */
  function Splice(blocks: seq<Block>, rb: Rebuilt, limit: int): seq<Block>
  {
    NonEntries(blocks, "PM") + (Lead(rb.quickWin) + rb.timeline) + DroppedLogs(rb.dropped, limit)
  }

  /** The timeline construction with its moving cursor. */
  method BuildTimeline(quickWin: Option<Block>, chartMinutes: int, resultsMinutes: int, callMinutes: int,
                       pmStart: int, pmLimit: int) returns (timeline: seq<Block>)
    ensures timeline == Timeline(quickWin, chartMinutes, resultsMinutes, callMinutes, pmStart, pmLimit)
  {
    timeline := [];
    var cursor := pmStart;
    if quickWin.Some? {
      timeline := timeline + [quickWin.value];
      cursor := quickWin.value.endMin;
    }
    ghost var p := StartPlan(quickWin, pmStart);
    assert Plan(timeline, cursor) == p;
    if chartMinutes > 0 {
      var minutes := Min(chartMinutes, Max(pmLimit - cursor - 45, 30));
      timeline := timeline + [ChartSprint(minutes, cursor, if quickWin.Some? then quickWin.value.order + 1 else 1)];
      cursor := cursor + minutes;
    }
    p := WithChart(p, chartMinutes, quickWin, pmLimit);
    assert Plan(timeline, cursor) == p;
    if resultsMinutes > 0 && cursor < pmLimit - 30 {
      var minutes := Min(Min(resultsMinutes, 30), pmLimit - cursor - 30);
      timeline := timeline + [ResultsSweep(minutes, cursor, NextOrder(timeline))];
      cursor := cursor + minutes;
    }
    p := WithResults(p, resultsMinutes, pmLimit);
    assert Plan(timeline, cursor) == p;
    if callMinutes > 0 && cursor < pmLimit - 25 {
      var minutes := Min(Min(callMinutes, 25), pmLimit - cursor - 25);
      timeline := timeline + [CallsBurst(minutes, cursor, NextOrder(timeline))];
      cursor := cursor + minutes;
    }
    p := WithCalls(p, callMinutes, pmLimit);
    assert Plan(timeline, cursor) == p == Staged(quickWin, chartMinutes, resultsMinutes, callMinutes, pmStart, pmLimit);
    timeline := timeline + [ClosingWindDown(pmLimit, cursor, NextOrder(timeline))];
  }

  /** compressPM's guards: the early limit, or None when compression does not apply. */
  method EarlyLimit(meta: seq<Span>, userEndTime: string) returns (cut: Option<Cut>)
    ensures cut == CutOf(meta, userEndTime)
  {
    if userEndTime == "" || Lookup(meta, "PM").None? {
      return None;
    }
    var pm := Lookup(meta, "PM").value;
    var userEnd := ParseClock(userEndTime);
    if userEnd.None? {
      return None;
    }
    var pmLimit := Min(pm.end, userEnd.value);
    var pmStart := pm.start;
    if pmLimit <= pmStart {
      return None;
    }
    return Some(Cut(pmStart, pmLimit));
  }

  /** compressPM, in the order the engine takes its steps. */
  method CompressPM(blocks: seq<Block>, meta: seq<Span>, userEndTime: string) returns (blocks': seq<Block>)
    ensures blocks' == Compress(blocks, meta, userEndTime)
    ensures CutOf(meta, userEndTime).None? || Entries(blocks, "PM") == [] ==> blocks' == blocks
  {
    var cut := EarlyLimit(meta, userEndTime);
    if cut.None? {
      return blocks;
    }
    var pmBlocks := Entries(blocks, "PM");
    if pmBlocks == [] {
      return blocks;
    }
    var rb := Rebuild(pmBlocks, cut.value);
    var quickWin, timeline, dropped := rb.quickWin, rb.timeline, rb.dropped;

    var remainingBlocks := NonEntries(blocks, "PM");
    if quickWin.Some? {
      timeline := [quickWin.value] + timeline;
    }
    assert timeline == Lead(rb.quickWin) + rb.timeline;
    // scheduleBlock copies each block; its clock strings follow from its minutes
    blocks' := AddCarryovers(remainingBlocks + timeline, dropped, cut.value.limit);
    assert blocks' == Splice(blocks, rb, cut.value.limit);
  }

  /** The quick win, the minutes by kind of work, the two passes and the timeline. */
  method Rebuild(pmBlocks: seq<Block>, cut: Cut) returns (rb: Rebuilt)
    ensures rb == RebuildPM(pmBlocks, cut)
  {
    var pmStart, pmLimit := cut.start, cut.limit;
    var quickWin := FirstQuickWin(pmBlocks);
    var chartMinutes := MinutesMatching(pmBlocks, "chart");
    var resultsMinutes := MinutesMatching(pmBlocks, "result");
    var callMinutes := MinutesMatching(pmBlocks, "call");

    var dropped := MarkDropped(pmBlocks, ReservedTitles, []);
    var timeline := BuildTimeline(quickWin, chartMinutes, resultsMinutes, callMinutes, pmStart, pmLimit);
    var preserved := Titles(timeline);
    dropped := MarkDropped(pmBlocks, PreservedTitles(preserved), dropped);
    rb := Rebuilt(quickWin, timeline, dropped);
  }

  /** `for (const title of dropped) applyCarryover(…)`: one log per title, in order. */
  method AddCarryovers(blocks: seq<Block>, dropped: seq<string>, limit: int) returns (blocks': seq<Block>)
    ensures blocks' == blocks + DroppedLogs(dropped, limit)
  {
    blocks' := blocks;
    var i := 0;
    while i < |dropped|
      invariant 0 <= i <= |dropped|
      invariant blocks' == blocks + DroppedLogs(dropped[..i], limit)
    {
      blocks' := blocks' + [CarryoverOf(dropped[i], 1, "tasks", limit, "PM")];
      i := i + 1;
      assert DroppedLogs(dropped[..i], limit) ==
             DroppedLogs(dropped[..i - 1], limit) + [CarryoverOf(dropped[i - 1], 1, "tasks", limit, "PM")];
    }
    assert dropped[..i] == dropped;
  }

  // ---------------------------------------------------------------- the timeline's shape

  /** Every block is a PM block taking part in the PM schedule. */
  predicate InPM(tl: seq<Block>)
  {
    forall b :: b in tl ==> IsEntry(b, "PM")
  }

  lemma PushInPM(p: Plan, b: Block)
    requires InPM(p.timeline) && IsEntry(b, "PM")
    ensures InPM(Push(p, b).timeline)
  {
    assert forall c :: c in p.timeline + [b] ==> c in p.timeline || c == b;
  }

  /** Given a quick win of the PM schedule, the whole timeline belongs to the PM schedule. */
  lemma TimelineInPM(quickWin: Option<Block>, chart: int, results: int, calls: int, pmStart: int, limit: int)
    requires quickWin.Some? ==> IsEntry(quickWin.value, "PM")
    ensures InPM(Lead(quickWin) + Timeline(quickWin, chart, results, calls, pmStart, limit))
  {
    var p0 := StartPlan(quickWin, pmStart);
    var p1 := WithChart(p0, chart, quickWin, limit);
    var p2 := WithResults(p1, results, limit);
    var p3 := WithCalls(p2, calls, limit);
    assert InPM(p0.timeline);
    if chart > 0 {
      PushInPM(p0, ChartSprint(ChartMinutes(chart, p0.cursor, limit), p0.cursor,
                               if quickWin.Some? then quickWin.value.order + 1 else 1));
    }
    if results > 0 && p1.cursor < limit - 30 {
      PushInPM(p1, ResultsSweep(ResultsMinutes(results, p1.cursor, limit), p1.cursor, NextOrder(p1.timeline)));
    }
    if calls > 0 && p2.cursor < limit - 25 {
      PushInPM(p2, CallsBurst(CallMinutes(calls, p2.cursor, limit), p2.cursor, NextOrder(p2.timeline)));
    }
    var w := ClosingWindDown(limit, p3.cursor, NextOrder(p3.timeline));
    PushInPM(p3, w);
    assert Timeline(quickWin, chart, results, calls, pmStart, limit) == Push(p3, w).timeline;
    assert forall c :: c in Lead(quickWin) + Push(p3, w).timeline ==> c in Lead(quickWin) || c in Push(p3, w).timeline;
  }

  /**
   * The Chart Sprint holds the chart minutes, cut to leave 45 minutes before
   * the limit but never below 30 minutes; so it always fits when 75 minutes
   * remain.
   */
  lemma ChartSprintBounds(p: Plan, chart: int, quickWin: Option<Block>, limit: int)
    requires chart > 0
    ensures WithChart(p, chart, quickWin, limit).timeline[..|p.timeline|] == p.timeline
    ensures Last(WithChart(p, chart, quickWin, limit).timeline).title == "Chart Sprint"
    ensures Last(WithChart(p, chart, quickWin, limit).timeline).startMin == p.cursor
    ensures 0 < WithChart(p, chart, quickWin, limit).cursor - p.cursor <= chart
    ensures WithChart(p, chart, quickWin, limit).cursor - p.cursor >= Min(chart, 30)
    ensures limit - p.cursor >= 75 ==> WithChart(p, chart, quickWin, limit).cursor <= limit - 45
  {
    assert (p.timeline + [ChartSprint(ChartMinutes(chart, p.cursor, limit), p.cursor,
                                      if quickWin.Some? then quickWin.value.order + 1 else 1)])[..|p.timeline|] == p.timeline;
  }

  /**
   * The Results Sweep appears exactly while more than 30 minutes remain; it
   * lasts at most 30 minutes and the results minutes, and at least 30 minutes
   * still remain after it.
   */
  lemma ResultsSweepBounds(p: Plan, results: int, limit: int)
    ensures |WithResults(p, results, limit).timeline| == |p.timeline| + (if results > 0 && p.cursor < limit - 30 then 1 else 0)
    ensures WithResults(p, results, limit).timeline[..|p.timeline|] == p.timeline
    ensures results > 0 && p.cursor < limit - 30 ==>
      Last(WithResults(p, results, limit).timeline).title == "Results Sweep" &&
      Last(WithResults(p, results, limit).timeline).startMin == p.cursor &&
      0 < WithResults(p, results, limit).cursor - p.cursor <= Min(results, 30) &&
      WithResults(p, results, limit).cursor <= limit - 30
  {
    if results > 0 && p.cursor < limit - 30 {
      var b := ResultsSweep(ResultsMinutes(results, p.cursor, limit), p.cursor, NextOrder(p.timeline));
      assert (p.timeline + [b])[..|p.timeline|] == p.timeline;
    }
  }

  /**
   * The Calls Burst appears exactly while more than 25 minutes remain; it
   * lasts at most 25 minutes and the call minutes, and at least 25 minutes
   * still remain after it.
   */
  lemma CallsBurstBounds(p: Plan, calls: int, limit: int)
    ensures |WithCalls(p, calls, limit).timeline| == |p.timeline| + (if calls > 0 && p.cursor < limit - 25 then 1 else 0)
    ensures WithCalls(p, calls, limit).timeline[..|p.timeline|] == p.timeline
    ensures calls > 0 && p.cursor < limit - 25 ==>
      Last(WithCalls(p, calls, limit).timeline).title == "Calls Burst" &&
      Last(WithCalls(p, calls, limit).timeline).startMin == p.cursor &&
      0 < WithCalls(p, calls, limit).cursor - p.cursor <= Min(calls, 25) &&
      WithCalls(p, calls, limit).cursor <= limit - 25
  {
    if calls > 0 && p.cursor < limit - 25 {
      var b := CallsBurst(CallMinutes(calls, p.cursor, limit), p.cursor, NextOrder(p.timeline));
      assert (p.timeline + [b])[..|p.timeline|] == p.timeline;
    }
  }

  /**
   * The timeline always ends with a 15-minute Wind-down ending exactly at
   * the limit and starting no earlier than the cursor, and it opens with
   * the quick win when there is one.
   */
  lemma TimelineEnds(quickWin: Option<Block>, chart: int, results: int, calls: int, pmStart: int, limit: int)
    ensures |Timeline(quickWin, chart, results, calls, pmStart, limit)| >= 1
    ensures Last(Timeline(quickWin, chart, results, calls, pmStart, limit)).title == "Wind-down"
    ensures Last(Timeline(quickWin, chart, results, calls, pmStart, limit)).minutes == 15
    ensures Last(Timeline(quickWin, chart, results, calls, pmStart, limit)).endMin == limit
    ensures Last(Timeline(quickWin, chart, results, calls, pmStart, limit)).startMin ==
            Max(limit - 15, Staged(quickWin, chart, results, calls, pmStart, limit).cursor)
    ensures quickWin.Some? ==> Timeline(quickWin, chart, results, calls, pmStart, limit)[0] == quickWin.value
  {
    var p0 := StartPlan(quickWin, pmStart);
    var p1 := WithChart(p0, chart, quickWin, limit);
    var p2 := WithResults(p1, results, limit);
    var p3 := WithCalls(p2, calls, limit);
    if quickWin.Some? {
      assert p1.timeline[0] == quickWin.value;
      assert p2.timeline[0] == quickWin.value;
      assert p3.timeline[0] == quickWin.value;
    }
  }

  /** The timeline holds a Chart Sprint exactly when there are chart minutes (or the quick win is one). */
  lemma TimelineChartSprint(quickWin: Option<Block>, chart: int, results: int, calls: int, pmStart: int, limit: int)
    ensures (exists b :: b in Timeline(quickWin, chart, results, calls, pmStart, limit) && b.title == "Chart Sprint") <==>
            chart > 0 || (quickWin.Some? && quickWin.value.title == "Chart Sprint")
  {
    var p0 := StartPlan(quickWin, pmStart);
    var p1 := WithChart(p0, chart, quickWin, limit);
    var p2 := WithResults(p1, results, limit);
    var p3 := WithCalls(p2, calls, limit);
    var tl := Timeline(quickWin, chart, results, calls, pmStart, limit);
    assert tl == p3.timeline + [Last(tl)];
    assert Last(tl).title == "Wind-down";
    assert forall b :: b in tl ==> b in p3.timeline || b == Last(tl);
    assert forall b :: b in p3.timeline ==> b in p2.timeline || b.title == "Calls Burst";
    assert forall b :: b in p2.timeline ==> b in p1.timeline || b.title == "Results Sweep";
    assert forall b :: b in p1.timeline ==> b in p0.timeline || b.title == "Chart Sprint";
    if chart > 0 {
      var c := Last(p1.timeline);
      assert c in p1.timeline && c.title == "Chart Sprint";
      assert c in p2.timeline && c in p3.timeline && c in tl;
    }
    if quickWin.Some? {
      assert quickWin.value in p1.timeline && quickWin.value in p2.timeline && quickWin.value in p3.timeline;
      assert quickWin.value in tl;
    }
  }

  /** Each block's order is one more than the previous block's. */
  predicate Consecutive(tl: seq<Block>)
  {
    forall k :: 0 < k < |tl| ==> tl[k].order == tl[k - 1].order + 1
  }

  lemma PushConsecutive(p: Plan, b: Block)
    requires Consecutive(p.timeline)
    requires p.timeline != [] ==> b.order == NextOrder(p.timeline)
    ensures Consecutive(Push(p, b).timeline)
  {
    var tl := Push(p, b).timeline;
    forall k | 0 < k < |tl| ensures tl[k].order == tl[k - 1].order + 1 {
      assert tl[k - 1] == p.timeline[k - 1];
    }
  }

  /** The orders of the timeline run consecutively. */
  lemma TimelineOrders(quickWin: Option<Block>, chart: int, results: int, calls: int, pmStart: int, limit: int)
    ensures Consecutive(Timeline(quickWin, chart, results, calls, pmStart, limit))
  {
    var p0 := StartPlan(quickWin, pmStart);
    var p1 := WithChart(p0, chart, quickWin, limit);
    var p2 := WithResults(p1, results, limit);
    var p3 := WithCalls(p2, calls, limit);
    if chart > 0 {
      PushConsecutive(p0, Last(p1.timeline));
    }
    if p2 != p1 {
      PushConsecutive(p1, Last(p2.timeline));
    }
    if p3 != p2 {
      PushConsecutive(p2, Last(p3.timeline));
    }
    PushConsecutive(p3, ClosingWindDown(limit, p3.cursor, NextOrder(p3.timeline)));
  }

  /** Blocks from `first` on run back to back, end by the limit, and the cursor is the last end. */
  predicate Packed(tl: seq<Block>, first: nat, cursor: int, limit: int)
  {
    first <= |tl| &&
    (forall k :: first <= k < |tl| ==> tl[k].endMin <= limit && tl[k].startMin + tl[k].minutes == tl[k].endMin) &&
    (forall k :: first < k < |tl| ==> tl[k].startMin == tl[k - 1].endMin) &&
    (first < |tl| ==> Last(tl).endMin == cursor) &&
    cursor <= limit - 15
  }

  lemma PushPacked(p: Plan, b: Block, first: nat, limit: int)
    requires Packed(p.timeline, first, p.cursor, limit)
    requires b.startMin == p.cursor && b.startMin + b.minutes == b.endMin && b.endMin <= limit - 15
    ensures Packed(Push(p, b).timeline, first, b.endMin, limit)
  {
    var tl := Push(p, b).timeline;
    var n := |p.timeline|;
    forall k | first <= k < |tl| ensures tl[k].endMin <= limit && tl[k].startMin + tl[k].minutes == tl[k].endMin {
      if k < n { assert tl[k] == p.timeline[k]; }
    }
    forall k | first < k < |tl| ensures tl[k].startMin == tl[k - 1].endMin {
      assert tl[k - 1] == p.timeline[k - 1];
      if k < n { assert tl[k] == p.timeline[k]; }
    }
  }

  /**
   * When the Chart Sprint leaves room (75 minutes remain after the quick win,
   * or there is no chart work and 15 minutes remain), every block after the
   * quick win runs back to back from the quick win's end and ends by the
   * limit, and the Wind-down takes the last 15 minutes before the limit.
   */
  lemma TimelineFits(quickWin: Option<Block>, chart: int, results: int, calls: int, pmStart: int, limit: int)
    requires (chart > 0 && limit - StartPlan(quickWin, pmStart).cursor >= 75) ||
             (chart <= 0 && StartPlan(quickWin, pmStart).cursor <= limit - 15)
    ensures Packed(Staged(quickWin, chart, results, calls, pmStart, limit).timeline,
                   |StartPlan(quickWin, pmStart).timeline|,
                   Staged(quickWin, chart, results, calls, pmStart, limit).cursor, limit)
    ensures Last(Timeline(quickWin, chart, results, calls, pmStart, limit)).startMin == limit - 15
  {
    StagedFits(quickWin, chart, results, calls, pmStart, limit);
    TimelineEnds(quickWin, chart, results, calls, pmStart, limit);
  }

  lemma StagedFits(quickWin: Option<Block>, chart: int, results: int, calls: int, pmStart: int, limit: int)
    requires (chart > 0 && limit - StartPlan(quickWin, pmStart).cursor >= 75) ||
             (chart <= 0 && StartPlan(quickWin, pmStart).cursor <= limit - 15)
    ensures Packed(Staged(quickWin, chart, results, calls, pmStart, limit).timeline,
                   |StartPlan(quickWin, pmStart).timeline|,
                   Staged(quickWin, chart, results, calls, pmStart, limit).cursor, limit)
  {
    var p0 := StartPlan(quickWin, pmStart);
    var p1 := WithChart(p0, chart, quickWin, limit);
    var p2 := WithResults(p1, results, limit);
    var first := |p0.timeline|;
    assert Packed(p0.timeline, first, p0.cursor, limit);
    if chart > 0 {
      ChartSprintBounds(p0, chart, quickWin, limit);
      PushPacked(p0, Last(p1.timeline), first, limit);
    }
    ResultsPacked(p1, results, first, limit);
    CallsPacked(p2, calls, first, limit);
  }

  lemma ResultsPacked(p: Plan, results: int, first: nat, limit: int)
    requires Packed(p.timeline, first, p.cursor, limit)
    ensures Packed(WithResults(p, results, limit).timeline, first, WithResults(p, results, limit).cursor, limit)
  {
    if results > 0 && p.cursor < limit - 30 {
      PushPacked(p, ResultsSweep(ResultsMinutes(results, p.cursor, limit), p.cursor, NextOrder(p.timeline)), first, limit);
    }
  }

  lemma CallsPacked(p: Plan, calls: int, first: nat, limit: int)
    requires Packed(p.timeline, first, p.cursor, limit)
    ensures Packed(WithCalls(p, calls, limit).timeline, first, WithCalls(p, calls, limit).cursor, limit)
  {
    if calls > 0 && p.cursor < limit - 25 {
      PushPacked(p, CallsBurst(CallMinutes(calls, p.cursor, limit), p.cursor, NextOrder(p.timeline)), first, limit);
    }
  }

  /**
   * The Chart Sprint's 30-minute floor can run past the limit: with 20
   * minutes left and an hour of chart work, the sprint ends 10 minutes after
   * the limit and the Wind-down starts after its own end.
   */
  lemma ChartSprintOverruns()
    ensures |Timeline(None, 60, 0, 0, 780, 800)| == 2
    ensures Timeline(None, 60, 0, 0, 780, 800)[0].title == "Chart Sprint"
    ensures Timeline(None, 60, 0, 0, 780, 800)[0].endMin == 810
    ensures Timeline(None, 60, 0, 0, 780, 800)[1].startMin == 810
    ensures Timeline(None, 60, 0, 0, 780, 800)[1].endMin == 800
  {
  }

  // ---------------------------------------------------------------- compressPM's properties

  /** A sequence none of whose blocks is an entry of the segment has no entries there. */
  lemma {:induction false} NoEntries(bs: seq<Block>, seg: string)
    requires forall b :: b in bs ==> !IsEntry(b, seg)
    ensures Entries(bs, seg) == [] && NonEntries(bs, seg) == bs
    decreases |bs|
  {
    if bs != [] {
      assert forall b :: b in bs[1..] ==> b in bs;
      NoEntries(bs[1..], seg);
      assert bs == [bs[0]] + bs[1..];
    }
  }

  /** A sequence all of whose blocks are entries of the segment is all entries. */
  lemma {:induction false} AllEntries(bs: seq<Block>, seg: string)
    requires forall b :: b in bs ==> IsEntry(b, seg)
    ensures Entries(bs, seg) == bs && NonEntries(bs, seg) == []
    decreases |bs|
  {
    if bs != [] {
      assert forall b :: b in bs[1..] ==> b in bs;
      AllEntries(bs[1..], seg);
      assert bs == [bs[0]] + bs[1..];
    }
  }

  /** The logs are carryover logs of the PM segment. */
  lemma LogsAreCarryovers(titles: seq<string>, limit: int)
    ensures forall b :: b in DroppedLogs(titles, limit) ==> b.kind == KindCarryover && b.segment == "PM"
  {
    var logs := DroppedLogs(titles, limit);
    forall b | b in logs ensures b.kind == KindCarryover && b.segment == "PM" {
      var k :| 0 <= k < |logs| && logs[k] == b;
    }
  }

  /** The quick win and the timeline that take the PM blocks' place. */
  lemma RebuiltInPM(blocks: seq<Block>, cut: Cut)
    requires Entries(blocks, "PM") != []
    ensures InPM(Lead(RebuildPM(Entries(blocks, "PM"), cut).quickWin) + RebuildPM(Entries(blocks, "PM"), cut).timeline)
  {
    var pm := Entries(blocks, "PM");
    var rb := RebuildPM(pm, cut);
    TimelineInPM(rb.quickWin, MinutesMatching(pm, "chart"), MinutesMatching(pm, "result"),
                 MinutesMatching(pm, "call"), cut.start, cut.limit);
  }

  /** Splicing puts the added PM schedule blocks in place of the old ones. */
  lemma SplicedPM(blocks: seq<Block>, added: seq<Block>, logs: seq<Block>)
    requires InPM(added)
    requires forall b :: b in logs ==> b.kind == KindCarryover
    ensures Entries(NonEntries(blocks, "PM") + added + logs, "PM") == added
  {
    var rest := NonEntries(blocks, "PM");
    AllEntries(added, "PM");
    EntriesOfCarryovers(logs, "PM");
    NoEntries(rest, "PM");
    EntriesAppend(rest + added, logs, "PM");
    EntriesAppend(rest, added, "PM");
  }

  /** Splicing keeps everything outside the PM schedule, then the logs. */
  lemma SplicedRest(blocks: seq<Block>, added: seq<Block>, logs: seq<Block>)
    requires InPM(added)
    requires forall b :: b in logs ==> b.kind == KindCarryover
    ensures NonEntries(NonEntries(blocks, "PM") + added + logs, "PM") == NonEntries(blocks, "PM") + logs
  {
    var rest := NonEntries(blocks, "PM");
    AllEntries(added, "PM");
    NoEntries(logs, "PM");
    NoEntries(rest, "PM");
    NonEntriesAppend(rest, added, "PM");
    assert NonEntries(rest + added, "PM") == rest;
    NonEntriesAppend(rest + added, logs, "PM");
  }

  /** Splicing keeps the schedule of every other segment. */
  lemma SplicedOther(blocks: seq<Block>, added: seq<Block>, logs: seq<Block>, seg: string)
    requires seg != "PM"
    requires InPM(added)
    requires forall b :: b in logs ==> b.kind == KindCarryover
    ensures Entries(NonEntries(blocks, "PM") + added + logs, seg) == Entries(blocks, seg)
  {
    var rest := NonEntries(blocks, "PM");
    NoEntries(added, seg);
    EntriesOfCarryovers(logs, seg);
    EntriesAppend(rest + added, logs, seg);
    EntriesAppend(rest, added, seg);
    EntriesOfNonEntries(blocks, "PM", seg);
  }

  /**
   * Compression rebuilds only the PM segment: the blocks of every other
   * segment are kept, in their order.
   */
  lemma CompressKeepsOtherSegments(blocks: seq<Block>, meta: seq<Span>, userEndTime: string, seg: string)
    requires seg != "PM"
    ensures Entries(Compress(blocks, meta, userEndTime), seg) == Entries(blocks, seg)
  {
    var cut := CutOf(meta, userEndTime);
    var pm := Entries(blocks, "PM");
    if cut.Some? && pm != [] {
      var rb := RebuildPM(pm, cut.value);
      RebuiltInPM(blocks, cut.value);
      LogsAreCarryovers(rb.dropped, cut.value.limit);
      SplicedOther(blocks, Lead(rb.quickWin) + rb.timeline, DroppedLogs(rb.dropped, cut.value.limit), seg);
      CompressUnfold(blocks, meta, userEndTime);
    }
  }

  /** Compression, when it applies, in its three parts. */
  lemma CompressUnfold(blocks: seq<Block>, meta: seq<Span>, userEndTime: string)
    requires CutOf(meta, userEndTime).Some? && Entries(blocks, "PM") != []
    ensures Compress(blocks, meta, userEndTime) ==
            Splice(blocks, RebuildPM(Entries(blocks, "PM"), CutOf(meta, userEndTime).value), CutOf(meta, userEndTime).value.limit)
  {
  }

  /**
   * After compression the PM schedule is exactly the quick win followed by
   * the rebuilt timeline (which starts with the same quick win again).
   */
  lemma CompressRebuildsPM(blocks: seq<Block>, meta: seq<Span>, userEndTime: string)
    requires CutOf(meta, userEndTime).Some? && Entries(blocks, "PM") != []
    ensures Entries(Compress(blocks, meta, userEndTime), "PM") ==
            Lead(RebuildPM(Entries(blocks, "PM"), CutOf(meta, userEndTime).value).quickWin) +
            RebuildPM(Entries(blocks, "PM"), CutOf(meta, userEndTime).value).timeline
  {
    var cut := CutOf(meta, userEndTime).value;
    var rb := RebuildPM(Entries(blocks, "PM"), cut);
    RebuiltInPM(blocks, cut);
    LogsAreCarryovers(rb.dropped, cut.limit);
    SplicedPM(blocks, Lead(rb.quickWin) + rb.timeline, DroppedLogs(rb.dropped, cut.limit));
    CompressUnfold(blocks, meta, userEndTime);
  }

  /**
   * Everything that is not a PM schedule block (other segments and every
   * carryover log) keeps its relative order, followed by the new logs.
   */
  lemma CompressKeepsCarryovers(blocks: seq<Block>, meta: seq<Span>, userEndTime: string)
    requires CutOf(meta, userEndTime).Some? && Entries(blocks, "PM") != []
    ensures NonEntries(Compress(blocks, meta, userEndTime), "PM") ==
            NonEntries(blocks, "PM") +
            DroppedLogs(RebuildPM(Entries(blocks, "PM"), CutOf(meta, userEndTime).value).dropped,
                        CutOf(meta, userEndTime).value.limit)
  {
    var cut := CutOf(meta, userEndTime).value;
    var rb := RebuildPM(Entries(blocks, "PM"), cut);
    RebuiltInPM(blocks, cut);
    LogsAreCarryovers(rb.dropped, cut.limit);
    SplicedRest(blocks, Lead(rb.quickWin) + rb.timeline, DroppedLogs(rb.dropped, cut.limit));
    CompressUnfold(blocks, meta, userEndTime);
  }

  /**
   * The dropped titles hold no duplicates, so each gets exactly one
   * carryover log; a title is dropped exactly when some PM block that is not
   * a quick win carries it and it is either not reserved by the first pass
   * or not preserved by the timeline.
   */
  lemma DroppedSpec(pm: seq<Block>, cut: Cut)
    ensures NoDuplicates(RebuildPM(pm, cut).dropped)
    ensures forall t :: t in RebuildPM(pm, cut).dropped <==>
      exists b :: b in pm && b.kind != KindQuickWin && b.title == t &&
                  (!Reserved(t) || t !in Titles(RebuildPM(pm, cut).timeline))
  {
    var rb := RebuildPM(pm, cut);
    var keep := PreservedTitles(Titles(rb.timeline));
    var first := Marked(pm, ReservedTitles, []);
    MarkedSpec(pm, ReservedTitles, []);
    MarkedSpec(pm, keep, first);
    forall t ensures t in rb.dropped <==> exists b :: b in pm && b.kind != KindQuickWin && b.title == t &&
                                                   (!Reserved(t) || t !in keep.titles) {
      if exists b :: b in pm && b.kind != KindQuickWin && b.title == t && (!Reserved(t) || t !in keep.titles) {
        var b :| b in pm && b.kind != KindQuickWin && b.title == t && (!Reserved(t) || t !in keep.titles);
        if !Reserved(t) {
          assert MarkedBy(pm, ReservedTitles, t);
        } else {
          assert MarkedBy(pm, keep, t);
        }
      }
    }
  }
}
