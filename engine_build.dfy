/**
 * Building a segment's blocks from its windows (buildFromWindows), the quick
 * win put at the head of a segment (enqueueQuickWin), the supervision block
 * (addSupervisionBlock) and the guaranteed PM closing blocks
 * (ensureSignOffs, ensureWindDown).
 *
 * The engine's order counter is the object `{ value }` that nextOrder bumps;
 * here it is an integer threaded through each operation, and every block
 * takes the counter's value after the bump.
 */
module EngineBuild {
  import opened Common
  import opened EngineTypes
  import opened EngineQueues
  import opened EngineMeta
  import opened EngineGeneral
  import opened EngineParallel

  // ---------------------------------------------------------------- quick win

  function QuickWinBlock(w: QuickWin, seg: string, start: int, order: int): Block
  {
    Block("Quick Win — " + w.title, w.minutes, KindQuickWin, seg, 6, ["≤15m"], "quickWin",
          start, start + w.minutes, order)
  }

  /**
   * enqueueQuickWin: when there is a quick win left and the segment has a
   * span, the first quick win is taken off the list and scheduled at the
   * segment's start.
   */
  method EnqueueQuickWin(blocks: seq<Block>, quickWins: seq<QuickWin>, seg: string, meta: seq<Span>, counter: int)
    returns (blocks': seq<Block>, quickWins': seq<QuickWin>, counter': int)
    ensures quickWins == [] || Lookup(meta, seg).None? ==>
      blocks' == blocks && quickWins' == quickWins && counter' == counter
    ensures quickWins != [] && Lookup(meta, seg).Some? ==>
      blocks' == blocks + [QuickWinBlock(quickWins[0], seg, Lookup(meta, seg).value.start, counter + 1)] &&
      quickWins' == quickWins[1..] && counter' == counter + 1
  {
    var span := Lookup(meta, seg);
    if quickWins == [] || span.None? {
      return blocks, quickWins, counter;
    }
    var w := quickWins[0];
    quickWins' := quickWins[1..];
    counter' := counter + 1;
    blocks' := blocks + [QuickWinBlock(w, seg, span.value.start, counter')];
  }

  /**
   * The quick win scheduled first is the shortest of the normalised quick
   * wins, and it lasts between 1 and 15 minutes from the segment's start.
   */
  lemma FirstQuickWinShortest(tasks: seq<Task>, seg: string, start: int, order: int)
    requires NormaliseQuickWins(tasks) != []
    ensures var qs := NormaliseQuickWins(tasks);
      var b := QuickWinBlock(qs[0], seg, start, order);
      0 < b.minutes <= 15 && b.startMin == start && b.endMin == start + b.minutes &&
      forall j :: 0 <= j < |qs| ==> b.minutes <= qs[j].minutes
  {
    QuickWinsSorted(tasks);
  }

  // ---------------------------------------------------------------- supervision

  /** addSupervisionBlock: one block spanning the whole window. */
  function SupervisionBlock(seg: string, start: int, end: int, order: int): Block
  {
    Block("Resident Presentations + Sign-offs", Max(end - start, 0), KindSupervision, seg, 5, ["clinic"],
          "Chart Completion", start, end, order)
  }

  // ---------------------------------------------------------------- closing blocks

  const ClosingMinutes := 15

  /** A 15-minute PM block ending at the PM segment's end (and starting no earlier than 00:00). */
  function ClosingBlock(title: string, kind: string, yieldScore: int, meta: seq<string>, pmEnd: int, order: int): (b: Block)
    ensures b.minutes == ClosingMinutes && b.segment == "PM" && b.endMin == pmEnd
    ensures b.startMin == Max(pmEnd - ClosingMinutes, 0)
  {
    Block(title, ClosingMinutes, kind, "PM", yieldScore, meta, "auto", Max(pmEnd - ClosingMinutes, 0), pmEnd, order)
  }

  function SignOffBlock(pmEnd: int, order: int): Block
  {
    ClosingBlock("Clinic Sign-offs", KindSignOff, 4, ["clinic"], pmEnd, order)
  }

  function WindDownBlock(pmEnd: int, order: int): Block
  {
    ClosingBlock("Wind-down", KindWindDown, 2, ["transition"], pmEnd, order)
  }

  /** `/sign[-\s]?off/i` */
  predicate IsSignOffTitle(t: string)
  {
    MatchesJoined(t, "sign", "off")
  }

  /** `/wind[-\s]?down/i` */
  predicate IsWindDownTitle(t: string)
  {
    MatchesJoined(t, "wind", "down")
  }

  /** Some block, of any segment, is a sign-off by its title. */
  predicate HasSignOff(blocks: seq<Block>)
  {
    exists b :: b in blocks && IsSignOffTitle(b.title)
  }

  /** Some PM block is a wind-down by its title. */
  predicate HasWindDown(blocks: seq<Block>)
  {
    exists b :: b in blocks && b.segment == "PM" && IsWindDownTitle(b.title)
  }

  lemma SignOffTitleMatches()
    ensures IsSignOffTitle("Clinic Sign-offs")
  {
    var t := Lower("Clinic Sign-offs");
    assert t == "clinic sign-offs";
    assert t[11] == '-';
    assert IsPrefix("sign" + [t[11]] + "off", t[7..]);
  }

  lemma WindDownTitleMatches()
    ensures IsWindDownTitle("Wind-down")
  {
    var t := Lower("Wind-down");
    assert t == "wind-down";
    assert t[4] == '-';
    assert IsPrefix("wind" + [t[4]] + "down", t[0..]);
  }

  /**
   * ensureSignOffs: with a PM segment and no sign-off anywhere, a 15-minute
   * "Clinic Sign-offs" block is added at the end of PM. Afterwards a sign-off
   * is always present, so a second call changes nothing.
   */
  method EnsureSignOffs(blocks: seq<Block>, meta: seq<Span>, counter: int) returns (blocks': seq<Block>, counter': int)
    ensures Lookup(meta, "PM").None? || HasSignOff(blocks) ==> blocks' == blocks && counter' == counter
    ensures Lookup(meta, "PM").Some? && !HasSignOff(blocks) ==>
      blocks' == blocks + [SignOffBlock(Lookup(meta, "PM").value.end, counter + 1)] && counter' == counter + 1
    ensures Lookup(meta, "PM").Some? ==> HasSignOff(blocks')
  {
    var pm := Lookup(meta, "PM");
    if pm.None? || HasSignOff(blocks) {
      return blocks, counter;
    }
    counter' := counter + 1;
    var b := SignOffBlock(pm.value.end, counter');
    blocks' := blocks + [b];
    SignOffTitleMatches();
    assert b in blocks';
  }

  /**
   * ensureWindDown: with a PM segment and no PM wind-down, a 15-minute
   * "Wind-down" block is added at the end of PM. Afterwards PM always has a
   * wind-down, so a second call changes nothing.
   */
  method EnsureWindDown(blocks: seq<Block>, meta: seq<Span>, counter: int) returns (blocks': seq<Block>, counter': int)
    ensures Lookup(meta, "PM").None? || HasWindDown(blocks) ==> blocks' == blocks && counter' == counter
    ensures Lookup(meta, "PM").Some? && !HasWindDown(blocks) ==>
      blocks' == blocks + [WindDownBlock(Lookup(meta, "PM").value.end, counter + 1)] && counter' == counter + 1
    ensures Lookup(meta, "PM").Some? ==> HasWindDown(blocks')
  {
    var pm := Lookup(meta, "PM");
    if pm.None? || HasWindDown(blocks) {
      return blocks, counter;
    }
    counter' := counter + 1;
    var b := WindDownBlock(pm.value.end, counter');
    blocks' := blocks + [b];
    WindDownTitleMatches();
    assert b in blocks';
  }

  // ---------------------------------------------------------------- buildFromWindows

  /** The state buildFromWindows threads through the windows. */
  datatype Build = Build(blocks: seq<Block>, general: seq<Cluster>, pool: map<Category, int>, counter: int)

  /** Which filler a window's type selects. */
  datatype Filler = Supervise | Sweep | General | Skip

  function FillerOf(kind: Option<string>): Filler
  {
    if kind == Some("Clinical-Supervision") then Supervise
    else if kind == Some("Clinical-Parallel") then Sweep
    else if kind.None? || kind == Some("Admin") || kind == Some("Focus") then General
    else Skip
  }

  /** `quota ?? 0` */
  function Multiplier(quota: Option<real>): real
  {
    if quota.Some? then quota.value else 0.0
  }

  /** addSupervisionBlock as a step of the build. */
  function Supervised(st: Build, seg: string, s: int, e: int): Build
  {
    Build(st.blocks + [SupervisionBlock(seg, s, e, st.counter + 1)], st.general, st.pool, st.counter + 1)
  }

  /** fillParallelWindow as a step of the build: nothing for a window shorter than 12 minutes. */
  function Swept(st: Build, seg: string, s: int, e: int, multiplier: real): (r: Build)
    requires ValidPool(st.pool)
    ensures ValidPool(r.pool)
  {
    if Max(e - s, 0) < MinParallelWindow then st
    else
      var p := ParState(st.pool, WindowCap(s, e, multiplier), s, st.counter);
      ParallelFillShape(p, seg);
      var f := ParallelFill(p, seg);
      Build(st.blocks + f.blocks, st.general, f.state.pool, f.state.counter)
  }

  /** fillGeneralWindow as a step of the build. */
  function Filled(st: Build, seg: string, s: int, e: int, multiplier: real): Build
  {
    var f := GeneralFill(st.general, WindowCap(s, e, multiplier), s, seg, st.counter);
    Build(st.blocks + f.blocks, f.queue, st.pool, st.counter + |f.blocks|)
  }

  /** A window that buildFromWindows hands to a filler: both times present and readable. */
  predicate Usable(w: Window)
  {
    w.start != "" && w.end != "" && WindowTimes(w).Some?
  }

  /**
   * One window. A window missing its start or end is skipped; so is one
   * whose times do not read as HH:MM.
   */
  function Dispatch(st: Build, w: Window, multiplier: real): (r: Build)
    requires ValidPool(st.pool)
    ensures ValidPool(r.pool)
  {
    if !Usable(w) then st
    else
      var s := WindowTimes(w).value.0;
      var e := WindowTimes(w).value.1;
      match FillerOf(w.kind)
      case Supervise => Supervised(st, w.segment, s, e)
      case Sweep => Swept(st, w.segment, s, e, multiplier)
      case General => Filled(st, w.segment, s, e, multiplier)
      case Skip => st
  }

  /**
   * A Clinical-Supervision window becomes a single block covering the
   * window exactly; the general queue and the parallel pool are untouched.
   */
  lemma SupervisionCoversWindow(st: Build, w: Window, multiplier: real)
    requires ValidPool(st.pool) && Usable(w) && w.kind == Some("Clinical-Supervision")
    ensures var r := Dispatch(st, w, multiplier);
      var b := r.blocks[|r.blocks| - 1];
      |r.blocks| == |st.blocks| + 1 && r.blocks[..|st.blocks|] == st.blocks &&
      b.startMin == WindowTimes(w).value.0 && b.endMin == WindowTimes(w).value.1 &&
      b.minutes == Max(b.endMin - b.startMin, 0) && b.kind == KindSupervision && b.segment == w.segment &&
      b.order == st.counter + 1 && r.counter == st.counter + 1 && r.general == st.general && r.pool == st.pool
  {
  }

  /** A window without both readable times, or of any other type, adds nothing. */
  lemma DispatchSkips(st: Build, w: Window, multiplier: real)
    requires ValidPool(st.pool)
    requires !Usable(w) || FillerOf(w.kind) == Skip
    ensures Dispatch(st, w, multiplier) == st
  {
  }

  /** The state after the windows have been visited in order. */
  function BuildFrom(wins: seq<Window>, st: Build, multiplier: real): (r: Build)
    requires ValidPool(st.pool)
    ensures ValidPool(r.pool)
    decreases |wins|
  {
    if wins == [] then st else Dispatch(BuildFrom(wins[..|wins| - 1], st, multiplier), wins[|wins| - 1], multiplier)
  }

  /** The body of buildFromWindows' loop: one window handed to its filler. */
  method DispatchWindow(out: seq<Block>, w: Window, general: seq<Cluster>, pool: map<Category, int>,
                        multiplier: real, counter: int)
    returns (out': seq<Block>, general': seq<Cluster>, pool': map<Category, int>, counter': int)
    requires ValidPool(pool)
    ensures Build(out', general', pool', counter') == Dispatch(Build(out, general, pool, counter), w, multiplier)
  {
    out', general', pool', counter' := out, general, pool, counter;
    if w.start == "" || w.end == "" {
      return;
    }
    var times := WindowTimes(w);
    if times.None? {
      return;
    }
    var s := times.value.0;
    var e := times.value.1;
    var filler := FillerOf(w.kind);
    if filler == Supervise {
      counter' := counter + 1;
      out' := out + [SupervisionBlock(w.segment, s, e, counter')];
    } else if filler == Sweep {
      out', pool', counter' := FillParallelWindow(out, w.segment, s, e, multiplier, pool, counter);
    } else if filler == General {
      out', general', counter' := FillGeneralWindow(out, w.segment, s, e, multiplier, general, counter);
    }
  }

  /**
   * buildFromWindows: each window is handed to the filler its type selects;
   * the general queue, the parallel pool and the counter carry over from one
   * window to the next.
   */
  method BuildFromWindows(out: seq<Block>, wins: seq<Window>, general: seq<Cluster>, pool: map<Category, int>,
                          quota: Option<real>, counter: int)
    returns (out': seq<Block>, general': seq<Cluster>, pool': map<Category, int>, counter': int)
    requires ValidPool(pool)
    ensures Build(out', general', pool', counter') == BuildFrom(wins, Build(out, general, pool, counter), Multiplier(quota))
    ensures ValidPool(pool')
  {
    var multiplier := Multiplier(quota);
    ghost var st0 := Build(out, general, pool, counter);
    out', general', pool', counter' := out, general, pool, counter;
    var i := 0;
    while i < |wins|
      invariant 0 <= i <= |wins|
      invariant ValidPool(pool')
      invariant Build(out', general', pool', counter') == BuildFrom(wins[..i], st0, multiplier)
    {
      assert wins[..i + 1][..i] == wins[..i];
      out', general', pool', counter' := DispatchWindow(out', wins[i], general', pool', multiplier, counter');
      i := i + 1;
    }
    assert wins[..i] == wins;
  }

  // ---------------------------------------------------------------- properties of a build

  /**
   * `r` extends `st` by appending blocks whose orders continue the counter
   * one by one: every block gets a fresh order, one above the last.
   */
  predicate Numbered(st: Build, r: Build)
  {
    |st.blocks| <= |r.blocks| && r.blocks[..|st.blocks|] == st.blocks &&
    r.counter == st.counter + (|r.blocks| - |st.blocks|) &&
    forall k :: |st.blocks| <= k < |r.blocks| ==> r.blocks[k].order == st.counter + 1 + (k - |st.blocks|)
  }

  lemma NumberedTrans(a: Build, b: Build, c: Build)
    requires Numbered(a, b) && Numbered(b, c)
    ensures Numbered(a, c)
  {
    assert c.blocks[..|a.blocks|] == c.blocks[..|b.blocks|][..|a.blocks|];
  }

  /** The blocks appended for one window, with their segment. */
  predicate AddedIn(st: Build, r: Build, seg: string)
    requires |st.blocks| <= |r.blocks|
  {
    forall k :: |st.blocks| <= k < |r.blocks| ==> r.blocks[k].segment == seg
  }

  lemma AppendNumbered(st: Build, added: seq<Block>, r: Build, seg: string)
    requires r.blocks == st.blocks + added && r.counter == st.counter + |added|
    requires forall k :: 0 <= k < |added| ==> added[k].order == st.counter + 1 + k && added[k].segment == seg
    ensures Numbered(st, r) && AddedIn(st, r, seg)
  {
    assert r.blocks[..|st.blocks|] == st.blocks;
    forall k | |st.blocks| <= k < |r.blocks|
      ensures r.blocks[k].order == st.counter + 1 + (k - |st.blocks|) && r.blocks[k].segment == seg
    {
      assert r.blocks[k] == added[k - |st.blocks|];
    }
  }

  lemma SweptNumbered(st: Build, seg: string, s: int, e: int, multiplier: real)
    requires ValidPool(st.pool)
    ensures Numbered(st, Swept(st, seg, s, e, multiplier)) && AddedIn(st, Swept(st, seg, s, e, multiplier), seg)
  {
    if Max(e - s, 0) >= MinParallelWindow {
      var p := ParState(st.pool, WindowCap(s, e, multiplier), s, st.counter);
      ParallelFillShape(p, seg);
      var f := ParallelFill(p, seg);
      forall k | 0 <= k < |f.blocks| ensures f.blocks[k].segment == seg {
        assert IsSweep(f.blocks[k], seg);
      }
      AppendNumbered(st, f.blocks, Swept(st, seg, s, e, multiplier), seg);
    } else {
      AppendNumbered(st, [], st, seg);
    }
  }

  lemma FilledNumbered(st: Build, seg: string, s: int, e: int, multiplier: real)
    ensures Numbered(st, Filled(st, seg, s, e, multiplier)) && AddedIn(st, Filled(st, seg, s, e, multiplier), seg)
  {
    var f := GeneralFill(st.general, WindowCap(s, e, multiplier), s, seg, st.counter);
    GeneralFillBlocks(st.general, WindowCap(s, e, multiplier), s, seg, st.counter);
    AppendNumbered(st, f.blocks, Filled(st, seg, s, e, multiplier), seg);
  }

  lemma DispatchNumbered(st: Build, w: Window, multiplier: real)
    requires ValidPool(st.pool)
    ensures Numbered(st, Dispatch(st, w, multiplier))
    ensures AddedIn(st, Dispatch(st, w, multiplier), w.segment)
  {
    if !Usable(w) {
      AppendNumbered(st, [], st, w.segment);
    } else {
      var s := WindowTimes(w).value.0;
      var e := WindowTimes(w).value.1;
      match FillerOf(w.kind)
      case Supervise => AppendNumbered(st, [SupervisionBlock(w.segment, s, e, st.counter + 1)], Supervised(st, w.segment, s, e), w.segment);
      case Sweep => SweptNumbered(st, w.segment, s, e, multiplier);
      case General => FilledNumbered(st, w.segment, s, e, multiplier);
      case Skip => AppendNumbered(st, [], st, w.segment);
    }
  }

  /**
   * A build only appends, and numbers what it appends consecutively from the
   * counter; when every window belongs to one segment, so does every
   * appended block.
   */
  lemma {:induction false} BuildFromNumbered(wins: seq<Window>, st: Build, multiplier: real, seg: string)
    requires ValidPool(st.pool)
    requires forall j :: 0 <= j < |wins| ==> wins[j].segment == seg
    ensures Numbered(st, BuildFrom(wins, st, multiplier))
    ensures AddedIn(st, BuildFrom(wins, st, multiplier), seg)
    decreases |wins|
  {
    if wins != [] {
      var p := wins[..|wins| - 1];
      BuildFromNumbered(p, st, multiplier, seg);
      var mid := BuildFrom(p, st, multiplier);
      DispatchNumbered(mid, wins[|wins| - 1], multiplier);
      var r := BuildFrom(wins, st, multiplier);
      NumberedTrans(st, mid, r);
      forall k | |st.blocks| <= k < |r.blocks| ensures r.blocks[k].segment == seg {
        if k < |mid.blocks| {
          assert r.blocks[k] == r.blocks[..|mid.blocks|][k];
        }
      }
    }
  }

  /** A build never adds to the general queue: what is left is a suffix of it, its head possibly cut short. */
  lemma {:induction false} BuildFromDequeues(wins: seq<Window>, st: Build, multiplier: real)
    requires ValidPool(st.pool)
    ensures RestOf(st.general, BuildFrom(wins, st, multiplier).general)
    decreases |wins|
  {
    if wins == [] {
      assert RestOf(st.general, st.general) by {
        assert st.general[0..] == st.general;
      }
    } else {
      var p := wins[..|wins| - 1];
      BuildFromDequeues(p, st, multiplier);
      var mid := BuildFrom(p, st, multiplier);
      var w := wins[|wins| - 1];
      if Usable(w) && FillerOf(w.kind) == General {
        var s := WindowTimes(w).value.0;
        var e := WindowTimes(w).value.1;
        GeneralFillDequeues(mid.general, WindowCap(s, e, multiplier), s, w.segment, mid.counter);
        RestOfTrans(st.general, mid.general, BuildFrom(wins, st, multiplier).general);
      }
    }
  }
}
