/**
 * generateAdaptiveItinerary: the whole pipeline. Quotas are adjusted by the
 * capacity bias the mental-energy score gives; the tasks become queues; the
 * AM windows and then the PM windows are filled, each segment opening with
 * a quick win; the PM closing blocks are guaranteed; every segment is slid
 * and repaired; PM is compressed to an early end; and every block is
 * labelled.
 */
module EngineGenerate {
  import opened Common
  import opened EngineTypes
  import opened EngineQueues
  import opened EngineMeta
  import opened EngineBuild
  import opened EngineRepair
  import opened EngineCompress

  // ---------------------------------------------------------------- quotas

  function RMin(a: real, b: real): real { if a <= b then a else b }
  function RMax(a: real, b: real): real { if a >= b then a else b }

  /**
   * The capacity bias: `0.85 + 0.35 × score`, kept within [0.6, 1.15]; 1
   * when there is no numeric score.
   */
  function CapacityBias(score: Option<real>): (bias: real)
    ensures 0.6 <= bias <= 1.15
    ensures score.None? ==> bias == 1.0
    ensures score.Some? && 0.6 <= 0.85 + score.value * 0.35 <= 1.15 ==> bias == 0.85 + score.value * 0.35
  {
    if score.None? then 1.0 else RMax(0.6, RMin(1.15, 0.85 + score.value * 0.35))
  }

  /** A higher score never lowers the bias. */
  lemma CapacityBiasMonotone(a: real, b: real)
    requires a <= b
    ensures CapacityBias(Some(a)) <= CapacityBias(Some(b))
  {
  }

  /**
   * resolveQuota: the quota when it is a finite number, else the fallback,
   * times the bias, kept within [0.1, 1].
   */
  function ResolveQuota(value: Option<real>, fallback: real, bias: real): (q: real)
    ensures 0.1 <= q <= 1.0
    ensures var base := if value.Some? then value.value else fallback;
      0.1 <= base * bias <= 1.0 ==> q == base * bias
  {
    var base := if value.Some? then value.value else fallback;
    RMax(0.1, RMin(1.0, base * bias))
  }

  const DefaultQuotaAM := 0.4
  const DefaultQuotaPM := 0.8

  /** Without quotas and without a score the defaults are used as they are. */
  lemma DefaultQuotas()
    ensures ResolveQuota(None, DefaultQuotaAM, CapacityBias(None)) == 0.4
    ensures ResolveQuota(None, DefaultQuotaPM, CapacityBias(None)) == 0.8
  {
  }

  // ---------------------------------------------------------------- finalizeLabels

  /** A block as the itinerary returns it, with its label and its reason. */
  datatype Labelled = Labelled(block: Block, labelText: string, why: string)

  /** `block.title || block.kind || 'Block'` */
  function LabelOf(b: Block): string
  {
    if b.title != "" then b.title else if b.kind != "" then b.kind else "Block"
  }

  /** `block.source || 'adaptive'` */
  function WhyOf(b: Block): string
  {
    if b.source != "" then b.source else "adaptive"
  }

  /**
   * finalizeLabels keeps every block, in order, and gives each a non-empty
   * label (its title, else its kind, else "Block") and reason (its source,
   * else "adaptive").
   */
  function FinalizeLabels(blocks: seq<Block>): (r: seq<Labelled>)
    ensures |r| == |blocks|
    ensures forall k :: 0 <= k < |r| ==> r[k].block == blocks[k] && r[k].labelText != [] && r[k].why != []
    ensures forall k :: 0 <= k < |r| ==>
      (r[k].labelText == blocks[k].title || (blocks[k].title == "" && (r[k].labelText == blocks[k].kind || r[k].labelText == "Block")))
    ensures forall k :: 0 <= k < |r| ==>
      (r[k].why == blocks[k].source || (blocks[k].source == "" && r[k].why == "adaptive"))
  {
    seq(|blocks|, k requires 0 <= k < |blocks| => Labelled(blocks[k], LabelOf(blocks[k]), WhyOf(blocks[k])))
  }

  // ---------------------------------------------------------------- the pipeline

  /** What generateAdaptiveItinerary reads from its context; absent parts are empty or None. */
  datatype Context = Context(
    windows: seq<Window>,
    quotaAM: Option<real>,
    quotaPM: Option<real>,
    tasks: seq<Task>,
    basket: map<Category, BasketEntry>,
    clinicType: string,
    userEndTime: string,
    mentalEnergyScore: Option<real>)

  /** The blocks and the queues, as the pipeline threads them. */
  datatype Day = Day(blocks: seq<Block>, general: seq<Cluster>, pool: map<Category, int>,
                     quickWins: seq<QuickWin>, counter: int)

  /** `windows.filter(window => window?.block === seg)` */
  function WindowsOf(ws: seq<Window>, seg: string): (r: seq<Window>)
    ensures forall j :: 0 <= j < |r| ==> r[j].segment == seg
    ensures forall w :: w in r <==> w in ws && w.segment == seg
    decreases |ws|
  {
    if ws == [] then []
    else
      var n := |ws| - 1;
      WindowsOf(ws[..n], seg) + (if ws[n].segment == seg then [ws[n]] else [])
  }

  /** enqueueQuickWin as a step. */
  function QuickWinStep(d: Day, seg: string, meta: seq<Span>): Day
  {
    if d.quickWins == [] || Lookup(meta, seg).None? then d
    else
      Day(d.blocks + [QuickWinBlock(d.quickWins[0], seg, Lookup(meta, seg).value.start, d.counter + 1)],
          d.general, d.pool, d.quickWins[1..], d.counter + 1)
  }

  /** One segment: when it has windows, its quick win and then its windows. */
  function SegmentStep(d: Day, windows: seq<Window>, seg: string, meta: seq<Span>, quota: real): (r: Day)
    requires ValidPool(d.pool)
    ensures ValidPool(r.pool)
  {
    var wins := WindowsOf(windows, seg);
    if wins == [] then d
    else
      var q := QuickWinStep(d, seg, meta);
      var b := BuildFrom(wins, Build(q.blocks, q.general, q.pool, q.counter), quota);
      Day(b.blocks, b.general, b.pool, q.quickWins, b.counter)
  }

  /** ensureSignOffs as a step. */
  function SignOffStep(d: Day, meta: seq<Span>): Day
  {
    if Lookup(meta, "PM").None? || HasSignOff(d.blocks) then d
    else d.(blocks := d.blocks + [SignOffBlock(Lookup(meta, "PM").value.end, d.counter + 1)], counter := d.counter + 1)
  }

  /** ensureWindDown as a step. */
  function WindDownStep(d: Day, meta: seq<Span>): Day
  {
    if Lookup(meta, "PM").None? || HasWindDown(d.blocks) then d
    else d.(blocks := d.blocks + [WindDownBlock(Lookup(meta, "PM").value.end, d.counter + 1)], counter := d.counter + 1)
  }

  function QuotaAM(ctx: Context): real
  {
    ResolveQuota(ctx.quotaAM, DefaultQuotaAM, CapacityBias(ctx.mentalEnergyScore))
  }

  function QuotaPM(ctx: Context): real
  {
    ResolveQuota(ctx.quotaPM, DefaultQuotaPM, CapacityBias(ctx.mentalEnergyScore))
  }

  /** The day before the repair: both segments built and the closing blocks guaranteed. */
  function Assembled(ctx: Context): Day
  {
    var meta := SegmentMeta(ctx.windows);
    var start := Day([], GeneralQueueOf(ctx.tasks), ParallelPoolOf(ctx.basket), NormaliseQuickWins(ctx.tasks), 0);
    var am := SegmentStep(start, ctx.windows, "AM", meta, QuotaAM(ctx));
    var pm := SegmentStep(am, ctx.windows, "PM", meta, QuotaPM(ctx));
    var signed := if ctx.clinicType == "clinic" then SignOffStep(pm, meta) else pm;
    WindDownStep(signed, meta)
  }

  /** The blocks after the repair and the early end, before labelling. */
  function Settle(blocks: seq<Block>, meta: seq<Span>, userEndTime: string): seq<Block>
  {
    Compress(SlideAll(blocks, SpanNames(meta), meta), meta, userEndTime)
  }

  /** The itinerary generateAdaptiveItinerary returns. */
  function Itinerary(ctx: Context): seq<Labelled>
  {
    FinalizeLabels(Settle(Assembled(ctx).blocks, SegmentMeta(ctx.windows), ctx.userEndTime))
  }

  /** One segment's quick win and windows, with the queues threaded through. */
  method FillSegment(d: Day, windows: seq<Window>, seg: string, meta: seq<Span>, quota: real) returns (r: Day)
    requires ValidPool(d.pool)
    ensures r == SegmentStep(d, windows, seg, meta, quota)
  {
    var wins := WindowsOf(windows, seg);
    if wins == [] {
      return d;
    }
    var blocks, quickWins, counter := EnqueueQuickWin(d.blocks, d.quickWins, seg, meta, d.counter);
    assert Day(blocks, d.general, d.pool, quickWins, counter) == QuickWinStep(d, seg, meta);
    var general, pool;
    blocks, general, pool, counter := BuildFromWindows(blocks, wins, d.general, d.pool, Some(quota), counter);
    r := Day(blocks, general, pool, quickWins, counter);
  }

  /** ensureSignOffs on the day's blocks. */
  method SignOffDay(d: Day, meta: seq<Span>) returns (r: Day)
    ensures r == SignOffStep(d, meta)
  {
    var blocks, counter := EnsureSignOffs(d.blocks, meta, d.counter);
    r := d.(blocks := blocks, counter := counter);
  }

  /** ensureWindDown on the day's blocks. */
  method WindDownDay(d: Day, meta: seq<Span>) returns (r: Day)
    ensures r == WindDownStep(d, meta)
  {
    var blocks, counter := EnsureWindDown(d.blocks, meta, d.counter);
    r := d.(blocks := blocks, counter := counter);
  }

  /** The pipeline up to the repair. */
  method Assemble(ctx: Context, meta: seq<Span>) returns (d: Day)
    requires meta == SegmentMeta(ctx.windows)
    ensures d == Assembled(ctx)
  {
    var bias := CapacityBias(ctx.mentalEnergyScore);
    var quotaAM := ResolveQuota(ctx.quotaAM, DefaultQuotaAM, bias);
    var quotaPM := ResolveQuota(ctx.quotaPM, DefaultQuotaPM, bias);
    var queues := ClusterTasks(ctx.tasks, ctx.basket);
    d := Day([], queues.general, queues.parallel, queues.quickWins, 0);
    d := FillSegment(d, ctx.windows, "AM", meta, quotaAM);
    d := FillSegment(d, ctx.windows, "PM", meta, quotaPM);
    if ctx.clinicType == "clinic" {
      d := SignOffDay(d, meta);
    }
    d := WindDownDay(d, meta);
  }

  /** generateAdaptiveItinerary. */
  method GenerateAdaptiveItinerary(ctx: Context) returns (itinerary: seq<Labelled>)
    ensures itinerary == Itinerary(ctx)
  {
    var meta := ComputeSegmentMeta(ctx.windows);
    var day := Assemble(ctx, meta);
    var blocks := AutoSlide(day.blocks, meta);
    blocks := CompressPM(blocks, meta, ctx.userEndTime);
    itinerary := FinalizeLabels(blocks);
  }

  // ---------------------------------------------------------------- properties

  /** The orders run 1, 2, 3, … in the order the blocks were emitted, and the counter is the last. */
  predicate Sequential(d: Day)
  {
    d.counter == |d.blocks| && forall k :: 0 <= k < |d.blocks| ==> d.blocks[k].order == k + 1
  }

  lemma AppendSequential(d: Day, b: Block, r: Day)
    requires Sequential(d)
    requires r.blocks == d.blocks + [b] && r.counter == d.counter + 1 && b.order == d.counter + 1
    ensures Sequential(r)
  {
    forall k | 0 <= k < |r.blocks| ensures r.blocks[k].order == k + 1 {
      if k < |d.blocks| {
        assert r.blocks[k] == d.blocks[k];
      }
    }
  }

  lemma SegmentSequential(d: Day, windows: seq<Window>, seg: string, meta: seq<Span>, quota: real)
    requires ValidPool(d.pool) && Sequential(d)
    ensures Sequential(SegmentStep(d, windows, seg, meta, quota))
  {
    var wins := WindowsOf(windows, seg);
    if wins != [] {
      var q := QuickWinStep(d, seg, meta);
      if q != d {
        AppendSequential(d, Last(q.blocks), q);
      }
      var st := Build(q.blocks, q.general, q.pool, q.counter);
      BuildFromNumbered(wins, st, quota, seg);
      var b := BuildFrom(wins, st, quota);
      forall k | 0 <= k < |b.blocks| ensures b.blocks[k].order == k + 1 {
        if k < |q.blocks| {
          assert b.blocks[k] == b.blocks[..|q.blocks|][k];
        }
      }
    }
  }

  /**
   * Before the repair, every block's order is its position in emission
   * order, counted from 1: the counter is bumped once per block, AM first.
   */
  lemma AssembledSequential(ctx: Context)
    ensures Sequential(Assembled(ctx))
  {
    var meta := SegmentMeta(ctx.windows);
    var start := Day([], GeneralQueueOf(ctx.tasks), ParallelPoolOf(ctx.basket), NormaliseQuickWins(ctx.tasks), 0);
    SegmentSequential(start, ctx.windows, "AM", meta, QuotaAM(ctx));
    var am := SegmentStep(start, ctx.windows, "AM", meta, QuotaAM(ctx));
    SegmentSequential(am, ctx.windows, "PM", meta, QuotaPM(ctx));
    var pm := SegmentStep(am, ctx.windows, "PM", meta, QuotaPM(ctx));
    var signed := if ctx.clinicType == "clinic" then SignOffStep(pm, meta) else pm;
    if signed != pm {
      AppendSequential(pm, Last(signed.blocks), signed);
    }
    var wound := WindDownStep(signed, meta);
    if wound != signed {
      AppendSequential(signed, Last(wound.blocks), wound);
    }
  }

  /**
   * Before the repair, a PM segment always holds a wind-down, and in a
   * clinic day some block is a sign-off.
   */
  lemma AssembledCloses(ctx: Context)
    requires Lookup(SegmentMeta(ctx.windows), "PM").Some?
    ensures HasWindDown(Assembled(ctx).blocks)
    ensures ctx.clinicType == "clinic" ==> HasSignOff(Assembled(ctx).blocks)
  {
    var meta := SegmentMeta(ctx.windows);
    var start := Day([], GeneralQueueOf(ctx.tasks), ParallelPoolOf(ctx.basket), NormaliseQuickWins(ctx.tasks), 0);
    var am := SegmentStep(start, ctx.windows, "AM", meta, QuotaAM(ctx));
    var pm := SegmentStep(am, ctx.windows, "PM", meta, QuotaPM(ctx));
    var signed := if ctx.clinicType == "clinic" then SignOffStep(pm, meta) else pm;
    var wound := WindDownStep(signed, meta);
    SignOffTitleMatches();
    WindDownTitleMatches();
    if ctx.clinicType == "clinic" {
      if !HasSignOff(pm.blocks) {
        assert Last(signed.blocks) in signed.blocks;
      }
      assert forall b :: b in signed.blocks ==> b in wound.blocks;
    }
    if !HasWindDown(signed.blocks) {
      assert Last(wound.blocks) in wound.blocks;
    }
  }

  /**
   * After the repair and the compression, the schedule blocks of every
   * segment in the span table pairwise do not overlap, except a PM schedule
   * that the early cut-off rebuilt.
   */
  lemma SettledLaidOut(blocks: seq<Block>, windows: seq<Window>, userEndTime: string, k: nat)
    requires k < |SegmentMeta(windows)|
    requires SegmentMeta(windows)[k].name != "PM" || CutOf(SegmentMeta(windows), userEndTime).None?
    ensures NonOverlapping(Entries(Settle(blocks, SegmentMeta(windows), userEndTime), SegmentMeta(windows)[k].name))
  {
    var meta := SegmentMeta(windows);
    SegmentMetaUnique(windows);
    AutoSlideLaidOut(blocks, meta, k);
    var slid := SlideAll(blocks, SpanNames(meta), meta);
    if meta[k].name != "PM" {
      CompressKeepsOtherSegments(slid, meta, userEndTime, meta[k].name);
    }
  }
}
