// The FMCA (friction-minute chart action) loop: each chart of a batch is
// worked minute by minute, nudged at minute 5 (micro-unstick) and 12
// (accelerator), and ends at the swap time with exactly one swap-3 or
// escalation, which parks the chart.

module Fmca {
  import opened Common

  /** A chart's fields at one moment. */
  datatype Chart = Chart(
    id: string,
    kind: string,
    ageDays: int,
    requiredToday: bool,
    swapCount: int,
    parked: bool,
    status: string,
    blockerNote: string,
    nextSteps: seq<string>)

  /** ChartTask: a chart whose status fields the loop updates in place. */
  class ChartTask {
    const id: string
    var kind: string
    var ageDays: int
    var requiredToday: bool
    var swapCount: int
    var parked: bool
    var status: string
    var blockerNote: string
    var nextSteps: seq<string>

    /** A new chart is active, not parked, with no note and no next steps. */
    constructor (id: string, kind: string, ageDays: int, requiredToday: bool, swapCount: int := 0)
      ensures View() == Chart(id, kind, ageDays, requiredToday, swapCount, false, "active", "", [])
    {
      this.id := id;
      this.kind := kind;
      this.ageDays := ageDays;
      this.requiredToday := requiredToday;
      this.swapCount := swapCount;
      parked := false;
      status := "active";
      blockerNote := "";
      nextSteps := [];
    }

    function View(): Chart
      reads this
    {
      Chart(id, kind, ageDays, requiredToday, swapCount, parked, status, blockerNote, nextSteps)
    }
  }

  /** One timeline entry; `Action` gives its "action" field. */
  datatype Event =
    | Unstick(chartId: string)
    | Accelerate(chartId: string)
    | Work(chartId: string, minute: int)
    | Swapped(chartParked: string, attestCharts: seq<string>)
    | Escalated(chartId: string)

  function Action(e: Event): string
  {
    match e
    case Unstick(_) => "micro_unstick"
    case Accelerate(_) => "accelerator"
    case Work(_, _) => "working"
    case Swapped(_, _) => "swap_3"
    case Escalated(_) => "escalate"
  }

  function Message(e: Event): string
  {
    match e
    case Unstick(_) => "Define 1-line finish. Take smallest next step."
    case Accelerate(_) => "Use snippet/template. Drop TODO if info missing."
    case Work(id, m) => "Working on chart " + id + " at minute " + IntToString(m)
    case Swapped(_, _) => "Parked current chart. Pulled 3 attest-only."
    case Escalated(_) => "Chart escalated for Deep Fix block later."
  }

  predicate IsTerminal(e: Event)
  {
    e.Swapped? || e.Escalated?
  }

  function Ids(charts: seq<ChartTask>): (ids: seq<string>)
    ensures |ids| == |charts|
    ensures forall i :: 0 <= i < |charts| ==> ids[i] == charts[i].id
  {
    seq(|charts|, i requires 0 <= i < |charts| => charts[i].id)
  }

  // ---------------------------------------------------------------- actions

  /** micro_unstick(chart) */
  function MicroUnstick(chart: ChartTask): (e: Event)
    ensures Action(e) == "micro_unstick" && e.chartId == chart.id
  {
    Unstick(chart.id)
  }

  /** accelerator(chart) */
  function Accelerator(chart: ChartTask): (e: Event)
    ensures Action(e) == "accelerator" && e.chartId == chart.id
  {
    Accelerate(chart.id)
  }

  /** The chart after a swap-3: parked, one more swap, a note and three steps. */
  function SwappedChart(c: Chart): (r: Chart)
    ensures r.parked && r.status == "parked" && r.swapCount == c.swapCount + 1
    ensures |r.nextSteps| == 3
    ensures r.id == c.id && r.kind == c.kind && r.ageDays == c.ageDays && r.requiredToday == c.requiredToday
  {
    c.(parked := true, status := "parked", swapCount := c.swapCount + 1,
       blockerNote := "Chart parked due to friction.",
       nextSteps := ["Step 1", "Step 2", "Step 3"])
  }

  /** The chart after an escalation: parked, swap count untouched. */
  function EscalatedChart(c: Chart): (r: Chart)
    ensures r.parked && r.status == "escalated" && r.swapCount == c.swapCount
    ensures r.nextSteps == c.nextSteps && r.blockerNote == c.blockerNote
    ensures r.id == c.id && r.kind == c.kind && r.ageDays == c.ageDays && r.requiredToday == c.requiredToday
  {
    c.(parked := true, status := "escalated")
  }

  /** swap_3(chart, attest_charts): parks the chart and names up to 3 charts to pull. */
  method Swap3(chart: ChartTask, attestCharts: seq<ChartTask>) returns (e: Event)
    modifies chart
    ensures chart.View() == SwappedChart(old(chart.View()))
    ensures e == Swapped(chart.id, Ids(attestCharts)[..Min(3, |attestCharts|)])
  {
    chart.parked := true;
    chart.status := "parked";
    chart.swapCount := chart.swapCount + 1;
    chart.blockerNote := "Chart parked due to friction.";
    chart.nextSteps := ["Step 1", "Step 2", "Step 3"];
    e := Swapped(chart.id, Ids(attestCharts[..Min(3, |attestCharts|)]));
  }

  /** escalate(chart) */
  method Escalate(chart: ChartTask) returns (e: Event)
    modifies chart
    ensures chart.View() == EscalatedChart(old(chart.View()))
    ensures e == Escalated(chart.id)
  {
    chart.parked := true;
    chart.status := "escalated";
    e := Escalated(chart.id);
  }

  // ---------------------------------------------------------------- specification

  /** The loop runs while the status is active or in_progress. */
  predicate Runnable(status: string)
  {
    status == "active" || status == "in_progress"
  }

  /** A chart escalates when it is critical and has already been swapped. */
  predicate Escalates(c: Chart)
  {
    (c.requiredToday || c.ageDays >= 80) && c.swapCount >= 1
  }

  /** The entry a non-final minute produces: the 5 and 12 checks come first. */
  function MinuteEvent(id: string, m: int): Event
  {
    if m == 5 then Unstick(id) else if m == 12 then Accelerate(id) else Work(id, m)
  }

  /**
   * The minute at which the chart ends: the first minute from 0 that has
   * reached the swap time and is neither 5 nor 12.
   */
  predicate Ends(m: int, swapTime: int)
  {
    m >= swapTime && m != 5 && m != 12
  }

  function TerminalMinute(swapTime: int): (t: nat)
    ensures Ends(t, swapTime)
    ensures forall m :: 0 <= m < t ==> !Ends(m, swapTime)
    ensures swapTime >= 0 && swapTime != 5 && swapTime != 12 ==> t == swapTime
  {
    var s := Max(swapTime, 0);
    if s == 5 then 6 else if s == 12 then 13 else s
  }

  function TerminalEvent(c: Chart, batchIds: seq<string>): Event
  {
    if Escalates(c) then Escalated(c.id) else Swapped(c.id, batchIds[..Min(3, |batchIds|)])
  }

  /** The entries one chart adds to the timeline. */
  function ChartEvents(c: Chart, swapTime: int, batchIds: seq<string>): seq<Event>
  {
    if !Runnable(c.status) then []
    else seq(TerminalMinute(swapTime), m => MinuteEvent(c.id, m)) + [TerminalEvent(c, batchIds)]
  }

  /** A chart after its turn in the loop. */
  function AfterChart(c: Chart): (r: Chart)
    ensures !Runnable(r.status)
    ensures Runnable(c.status) ==> r.parked
    ensures !Runnable(c.status) ==> r == c
  {
    if !Runnable(c.status) then c
    else if Escalates(c) then EscalatedChart(c)
    else SwappedChart(c)
  }

  // ---------------------------------------------------------------- the loop

  /** The minute loop for one chart. */
  method RunChart(chart: ChartTask, batch: seq<ChartTask>, swapTime: int) returns (events: seq<Event>)
    modifies chart
    ensures events == ChartEvents(old(chart.View()), swapTime, Ids(batch))
    ensures chart.View() == AfterChart(old(chart.View()))
  {
    ghost var before := chart.View();
    var minutes := 0;
    events := [];
    while Runnable(chart.status)
      invariant 0 <= minutes <= TerminalMinute(swapTime)
      invariant chart.View() == before
      invariant Runnable(before.status) || minutes == 0
      invariant events == seq(minutes, m => MinuteEvent(chart.id, m))
      decreases TerminalMinute(swapTime) - minutes
    {
      if minutes == 5 {
        var e := MicroUnstick(chart);
        events := events + [e];
      } else if minutes == 12 {
        var e := Accelerator(chart);
        events := events + [e];
      } else if minutes >= swapTime {
        assert minutes == TerminalMinute(swapTime);
        if chart.requiredToday || chart.ageDays >= 80 {
          if chart.swapCount >= 1 {
            var e := Escalate(chart);
            events := events + [e];
            break;
          }
        }
        var e := Swap3(chart, batch);
        events := events + [e];
        break;
      } else {
        events := events + [Work(chart.id, minutes)];
      }
      minutes := minutes + 1;
    }
  }

  /** All charts of the batch as they are now. */
  function Views(batch: seq<ChartTask>, n: nat): (vs: seq<Chart>)
    requires n <= |batch|
    reads set c | c in batch
    ensures |vs| == n
    ensures forall i :: 0 <= i < n ==> vs[i] == batch[i].View()
    ensures Consistent(batch[..n], vs)
  {
    if n == 0 then [] else Views(batch, n - 1) + [batch[n - 1].View()]
  }

  /**
   * The timeline of the first `n` charts, given their states before the loop
   * (`views`): a chart that already appeared earlier in the batch has been
   * parked by its first turn and adds nothing.
   */
  function Timeline(batch: seq<ChartTask>, views: seq<Chart>, n: nat, swapTime: int): seq<Event>
    requires n <= |batch| == |views|
  {
    if n == 0 then []
    else
      var earlier := Timeline(batch, views, n - 1, swapTime);
      if batch[n - 1] in batch[..n - 1] then earlier
      else earlier + ChartEvents(views[n - 1], swapTime, Ids(batch))
  }

  /** Two positions holding the same chart hold the same state. */
  predicate Consistent(batch: seq<ChartTask>, views: seq<Chart>)
    requires |batch| == |views|
  {
    forall j, k :: 0 <= j < |batch| && 0 <= k < |batch| && batch[j] == batch[k] ==> views[j] == views[k]
  }

  /** The charts' states after the first `i` turns, given their states before the loop. */
  function Progress(batch: seq<ChartTask>, views: seq<Chart>, i: nat): (cur: seq<Chart>)
    requires i <= |batch| == |views|
    ensures |cur| == |batch|
  {
    seq(|batch|, j requires 0 <= j < |batch| => if batch[j] in batch[..i] then AfterChart(views[j]) else views[j])
  }

  /** What the chart at `i` looks like when its turn comes, and what its turn adds. */
  lemma ProgressAt(batch: seq<ChartTask>, views: seq<Chart>, i: nat, swapTime: int)
    requires i < |batch| == |views|
    requires Consistent(batch, views)
    ensures Progress(batch, views, i)[i] == if batch[i] in batch[..i] then AfterChart(views[i]) else views[i]
    ensures ChartEvents(Progress(batch, views, i)[i], swapTime, Ids(batch)) ==
      if batch[i] in batch[..i] then [] else ChartEvents(views[i], swapTime, Ids(batch))
  {
  }

  /** A turn changes exactly the chart whose turn it is. */
  lemma ProgressStep(batch: seq<ChartTask>, views: seq<Chart>, i: nat)
    requires i < |batch| == |views|
    requires Consistent(batch, views)
    ensures forall j :: 0 <= j < |batch| ==>
      Progress(batch, views, i + 1)[j] ==
        (if batch[j] == batch[i] then AfterChart(Progress(batch, views, i)[i]) else Progress(batch, views, i)[j])
  {
    assert batch[..i + 1] == batch[..i] + [batch[i]];
  }

  /** After the last turn every chart has had its turn. */
  lemma ProgressDone(batch: seq<ChartTask>, views: seq<Chart>)
    requires |batch| == |views|
    ensures forall j :: 0 <= j < |batch| ==> Progress(batch, views, |batch|)[j] == AfterChart(views[j])
  {
    assert batch[..|batch|] == batch;
  }

  lemma TimelineStep(batch: seq<ChartTask>, views: seq<Chart>, i: nat, swapTime: int)
    requires i < |batch| == |views|
    ensures Timeline(batch, views, i + 1, swapTime) == Timeline(batch, views, i, swapTime)
      + (if batch[i] in batch[..i] then [] else ChartEvents(views[i], swapTime, Ids(batch)))
  {
  }

  /** run_fmca_loop(batch, controls) with controls["swap_time"] == swapTime. */
  method RunFmcaLoop(batch: seq<ChartTask>, swapTime: int) returns (timeline: seq<Event>)
    modifies set c | c in batch
    ensures timeline == Timeline(batch, old(Views(batch, |batch|)), |batch|, swapTime)
    ensures forall j :: 0 <= j < |batch| ==> batch[j].View() == AfterChart(old(batch[j].View()))
  {
    ghost var views := Views(batch, |batch|);
    ghost var cur := views;
    assert batch[..|batch|] == batch;
    timeline := [];
    var i := 0;
    while i < |batch|
      invariant 0 <= i <= |batch| == |cur|
      invariant timeline == Timeline(batch, views, i, swapTime)
      invariant cur == Progress(batch, views, i)
      invariant forall j :: 0 <= j < |batch| ==> batch[j].View() == cur[j]
    {
      var chart := batch[i];
      ProgressAt(batch, views, i, swapTime);
      var events := RunChart(chart, batch, swapTime);
      TimelineStep(batch, views, i, swapTime);
      timeline := timeline + events;
      ProgressStep(batch, views, i);
      cur := Progress(batch, views, i + 1);
      i := i + 1;
    }
    ProgressDone(batch, views);
  }

  // ---------------------------------------------------------------- properties

  /** A chart that is not active or in progress produces nothing. */
  lemma InactiveSilent(c: Chart, swapTime: int, ids: seq<string>)
    requires !Runnable(c.status)
    ensures ChartEvents(c, swapTime, ids) == []
  {
  }

  /**
   * A runnable chart's entries: one per minute before the terminal minute,
   * then exactly one swap-3 or escalation, and nothing terminal before it.
   */
  lemma {:induction false} ChartEventsShape(c: Chart, swapTime: int, ids: seq<string>)
    requires Runnable(c.status)
    ensures var es := ChartEvents(c, swapTime, ids);
      && |es| == TerminalMinute(swapTime) + 1
      && IsTerminal(es[|es| - 1])
      && (forall k :: 0 <= k < |es| - 1 ==> !IsTerminal(es[k]))
  {
    var es := ChartEvents(c, swapTime, ids);
    forall k | 0 <= k < |es| - 1
      ensures !IsTerminal(es[k])
    {
      assert es[k] == MinuteEvent(c.id, k);
    }
  }

  /**
   * Minute 5 is the micro-unstick and minute 12 the accelerator whenever the
   * chart is still running then; every other earlier minute is "working".
   */
  lemma {:induction false} MinuteActions(c: Chart, swapTime: int, ids: seq<string>, k: nat)
    requires Runnable(c.status)
    requires k < TerminalMinute(swapTime)
    ensures var es := ChartEvents(c, swapTime, ids);
      && (k == 5 ==> es[k] == Unstick(c.id))
      && (k == 12 ==> es[k] == Accelerate(c.id))
      && (k != 5 && k != 12 ==> es[k] == Work(c.id, k) && k < swapTime)
  {
    var es := ChartEvents(c, swapTime, ids);
    assert es[k] == MinuteEvent(c.id, k);
  }

  /** The micro-unstick happens at most once, and only at minute 5. */
  lemma {:induction false} SingleUnstick(c: Chart, swapTime: int, ids: seq<string>, k: nat)
    requires k < |ChartEvents(c, swapTime, ids)|
    ensures ChartEvents(c, swapTime, ids)[k].Unstick? ==> k == 5
  {
    var es := ChartEvents(c, swapTime, ids);
    if k < TerminalMinute(swapTime) {
      assert es[k] == MinuteEvent(c.id, k);
    } else {
      assert es[k] == TerminalEvent(c, ids);
    }
  }

  /** Swap time 12 puts the final action at minute 13; the 5 and 12 checks come first. */
  lemma SwapTimeTwelve(c: Chart, ids: seq<string>)
    requires Runnable(c.status)
    ensures |ChartEvents(c, 12, ids)| == 14
    ensures ChartEvents(c, 12, ids)[12] == Accelerate(c.id)
    ensures IsTerminal(ChartEvents(c, 12, ids)[13])
  {
  }

  /** The chart escalates exactly when it is critical and already swapped; else swap-3 names the first 3 batch ids. */
  lemma {:induction false} EscalationRule(c: Chart, swapTime: int, ids: seq<string>)
    requires Runnable(c.status)
    ensures var es := ChartEvents(c, swapTime, ids);
      && (es[|es| - 1].Escalated? <==> Escalates(c))
      && (!Escalates(c) ==> es[|es| - 1] == Swapped(c.id, ids[..Min(3, |ids|)]))
  {
    var es := ChartEvents(c, swapTime, ids);
    assert es[|es| - 1] == TerminalEvent(c, ids);
  }

  /** Every runnable chart ends parked; escalation keeps the swap count, swap-3 adds one. */
  lemma AfterChartRule(c: Chart)
    requires Runnable(c.status)
    ensures AfterChart(c).parked
    ensures Escalates(c) ==> AfterChart(c).status == "escalated" && AfterChart(c).swapCount == c.swapCount
    ensures !Escalates(c) ==> AfterChart(c).status == "parked" && AfterChart(c).swapCount == c.swapCount + 1
  {
  }

  /** A second turn for the same chart adds nothing: its first turn parked it. */
  lemma {:induction false} SecondTurnSilent(c: Chart, swapTime: int, ids: seq<string>)
    ensures ChartEvents(AfterChart(c), swapTime, ids) == []
    ensures AfterChart(AfterChart(c)) == AfterChart(c)
  {
  }
}
