/**
 * Queue construction for the itinerary engine (clusterTasks): the task list
 * is split into a FIFO queue of general work clusters and a list of quick
 * wins, and the basket becomes a pool of minutes per parallel category.
 */
module EngineQueues {
  import opened Common
  import opened EngineTypes
  import StableSort

  /**
   * One input task. Text fields are empty when missing or falsy; `meta` is
   * None when it is not an array.
   */
  datatype Task = Task(
    name: string,
    quickWin: bool,
    minutes: Field,
    duration: Field,
    slice: Field,
    yieldScore: Field,
    kind: string,
    meta: Option<seq<string>>,
    source: string)

  /** A general work item waiting in the FIFO queue, with the minutes it still needs. */
  datatype Cluster = Cluster(
    title: string,
    remaining: int,
    slice: int,
    yieldScore: int,
    kind: string,
    meta: seq<string>,
    source: string)

  datatype QuickWin = QuickWin(title: string, minutes: int)

  /** What the basket holds for one category. */
  datatype BasketEntry =
    | Absent                                                      // null or undefined
    | Minutes(n: int)                                             // a plain number
    | Counted(count: Field, minutesPerItem: Field, minutes: Field) // an object
    | OtherValue                                                  // anything else

  datatype Queues = Queues(general: seq<Cluster>, quickWins: seq<QuickWin>, parallel: map<Category, int>)

  // ---------------------------------------------------------------- parallel pool

  /** deriveParallelMinutes: the minutes of parallel work a basket entry stands for. */
  function DeriveParallelMinutes(e: BasketEntry): (r: int)
    ensures r >= 0
  {
    match e
    case Absent => 0
    case Minutes(n) => Max(n, 0)
    case Counted(count, perItem, minutes) =>
      var c := ClampMinutes(count, 0);
      var m := ClampMinutes(perItem, 5);
      if c > 0 && m > 0 then c * m else ClampMinutes(minutes, 0)
    case OtherValue => 0
  }

  /** A positive count takes precedence over `minutes`; a missing per-item figure means 5. */
  lemma CountTakesPrecedence(count: int, perItem: Field, minutes: Field)
    requires count > 0
    ensures DeriveParallelMinutes(Counted(Num(count), perItem, minutes)) ==
            count * (if perItem.Num? && perItem.n > 0 then perItem.n else 5)
  {
  }

  /** Without a positive count the object's own `minutes` is used, when positive. */
  lemma MinutesWithoutCount(count: Field, perItem: Field, minutes: Field)
    requires !(count.Num? && count.n > 0)
    ensures DeriveParallelMinutes(Counted(count, perItem, minutes)) ==
            (if minutes.Num? && minutes.n > 0 then minutes.n else 0)
  {
  }

  function BasketAt(basket: map<Category, BasketEntry>, c: Category): BasketEntry
  {
    if c in basket then basket[c] else Absent
  }

  /** The pool after the first `i` categories of ParallelOrder have been visited. */
  function PoolUpTo(basket: map<Category, BasketEntry>, i: nat): map<Category, int>
    requires i <= |ParallelOrder|
  {
    if i == 0 then map[]
    else
      var kind := ParallelOrder[i - 1];
      var minutes := DeriveParallelMinutes(BasketAt(basket, kind));
      if minutes > 0 then PoolUpTo(basket, i - 1)[kind := minutes] else PoolUpTo(basket, i - 1)
  }

  lemma {:induction false} PoolUpToContents(basket: map<Category, BasketEntry>, i: nat)
    requires i <= |ParallelOrder|
    ensures forall c :: c in PoolUpTo(basket, i) <==> CategoryIndex(c) < i && DeriveParallelMinutes(BasketAt(basket, c)) > 0
    ensures forall c :: c in PoolUpTo(basket, i) ==> PoolUpTo(basket, i)[c] == DeriveParallelMinutes(BasketAt(basket, c))
  {
    if i > 0 {
      PoolUpToContents(basket, i - 1);
      assert CategoryIndex(ParallelOrder[i - 1]) == i - 1;
    }
  }

  /** The categories with a positive derived number of minutes, each with those minutes. */
  function ParallelPoolOf(basket: map<Category, BasketEntry>): (pool: map<Category, int>)
    ensures forall c :: c in pool <==> DeriveParallelMinutes(BasketAt(basket, c)) > 0
    ensures forall c :: c in pool ==> pool[c] == DeriveParallelMinutes(BasketAt(basket, c))
  {
    PoolUpToContents(basket, |ParallelOrder|);
    PoolUpTo(basket, |ParallelOrder|)
  }

  /** Every pool value is positive: a category is dropped as soon as it runs dry. */
  predicate ValidPool(pool: map<Category, int>)
  {
    forall c :: c in pool ==> pool[c] > 0
  }

  // ---------------------------------------------------------------- general queue

  predicate ValidCluster(c: Cluster)
  {
    c.remaining > 0 && c.slice > 0
  }

  predicate ValidQueue(q: seq<Cluster>)
  {
    forall i :: 0 <= i < |q| ==> ValidCluster(q[i])
  }

  /**
   * The cluster a non-quick-win task becomes: a total taken from `minutes`,
   * or from `duration` when `minutes` is null or undefined, defaulting to 30;
   * a slice defaulting to min(total, 45); a yield defaulting to 2.
   */
  function ClusterOf(t: Task): (c: Cluster)
    ensures ValidCluster(c) && c.yieldScore > 0
    ensures c.remaining == ClampMinutes(if t.minutes.Missing? then t.duration else t.minutes, 30)
    ensures c.slice == ClampMinutes(t.slice, Min(c.remaining, 45))
    ensures c.title != [] && c.kind != [] && c.source != []
  {
    var total := ClampMinutes(if t.minutes.Missing? then t.duration else t.minutes, 30);
    Cluster(
      if t.name == "" then "Focused Work" else t.name,
      total,
      ClampMinutes(t.slice, Min(total, 45)),
      ClampMinutes(t.yieldScore, 2),
      if t.kind == "" then "Task" else t.kind,
      if t.meta.Some? then t.meta.value else [],
      if t.source == "" then "tasks" else t.source)
  }

  /** The cluster a task adds to the general queue: none for a quick win. */
  function GeneralEntry(t: Task): (q: seq<Cluster>)
    ensures |q| == (if t.quickWin then 0 else 1) && ValidQueue(q)
  {
    if t.quickWin then [] else [ClusterOf(t)]
  }

  /** The general queue: every task that is not a quick win, in input order. */
  function GeneralQueueOf(tasks: seq<Task>): (q: seq<Cluster>)
    ensures ValidQueue(q)
    decreases |tasks|
  {
    if tasks == [] then []
    else GeneralQueueOf(tasks[..|tasks| - 1]) + GeneralEntry(tasks[|tasks| - 1])
  }

  /** normaliseGeneralTasks: the loop that pushes one cluster per non-quick-win task. */
  method NormaliseGeneralTasks(tasks: seq<Task>) returns (queue: seq<Cluster>)
    ensures queue == GeneralQueueOf(tasks)
    ensures ValidQueue(queue)
  {
    queue := [];
    var i := 0;
    while i < |tasks|
      invariant 0 <= i <= |tasks|
      invariant queue == GeneralQueueOf(tasks[..i])
    {
      var t := tasks[i];
      assert tasks[..i + 1][..i] == tasks[..i];
      if !t.quickWin {
        queue := queue + [ClusterOf(t)];
      } else {
        assert queue + [] == queue;
      }
      i := i + 1;
    }
    assert tasks[..i] == tasks;
  }

  // ---------------------------------------------------------------- quick wins

  function QuickWinTasks(tasks: seq<Task>): (r: seq<Task>)
    ensures forall t :: t in r ==> t.quickWin
    decreases |tasks|
  {
    if tasks == [] then []
    else
      var last := tasks[|tasks| - 1];
      QuickWinTasks(tasks[..|tasks| - 1]) + (if last.quickWin then [last] else [])
  }

  /** The sort key of a quick win: its minutes, 15 when not a positive number. */
  function QuickWinKey(t: Task): int
  {
    ClampMinutes(t.minutes, 15)
  }

  function QuickWinOf(t: Task): (w: QuickWin)
    ensures 0 < w.minutes <= 15
  {
    QuickWin(if t.name == "" then "Quick Win" else t.name, Min(QuickWinKey(t), 15))
  }

  /** The quick-win tasks, sorted by their key ascending (stably). */
  function SortedQuickWinTasks(tasks: seq<Task>): seq<Task>
  {
    StableSort.SortDesc(QuickWinTasks(tasks), (t: Task) => -QuickWinKey(t))
  }

  function MapQuickWins(ts: seq<Task>): (r: seq<QuickWin>)
    ensures |r| == |ts|
    ensures forall i :: 0 <= i < |ts| ==> r[i] == QuickWinOf(ts[i])
    decreases |ts|
  {
    if ts == [] then [] else [QuickWinOf(ts[0])] + MapQuickWins(ts[1..])
  }

  /** normaliseQuickWins: filter, stable sort by minutes, then cap each at 15. */
  function NormaliseQuickWins(tasks: seq<Task>): seq<QuickWin>
  {
    MapQuickWins(SortedQuickWinTasks(tasks))
  }

  /**
   * The quick wins are exactly the quick-win tasks, reordered: their number
   * matches, each lasts between 1 and 15 minutes, and they run in
   * non-decreasing order of minutes.
   */
  lemma QuickWinsSorted(tasks: seq<Task>)
    ensures |NormaliseQuickWins(tasks)| == |QuickWinTasks(tasks)|
    ensures multiset(SortedQuickWinTasks(tasks)) == multiset(QuickWinTasks(tasks))
    ensures forall i :: 0 <= i < |NormaliseQuickWins(tasks)| ==> 0 < NormaliseQuickWins(tasks)[i].minutes <= 15
    ensures forall i, j :: 0 <= i < j < |NormaliseQuickWins(tasks)| ==>
              NormaliseQuickWins(tasks)[i].minutes <= NormaliseQuickWins(tasks)[j].minutes
  {
    var key := (t: Task) => -QuickWinKey(t);
    var s := SortedQuickWinTasks(tasks);
    StableSort.SortDescCorrect(QuickWinTasks(tasks), key);
    var r := NormaliseQuickWins(tasks);
    forall i, j | 0 <= i < j < |r| ensures r[i].minutes <= r[j].minutes {
      assert key(s[i]) >= key(s[j]);
    }
  }

  /** Every task goes to exactly one of the two queues. */
  lemma {:induction false} TasksPartitioned(tasks: seq<Task>)
    ensures |GeneralQueueOf(tasks)| + |QuickWinTasks(tasks)| == |tasks|
    decreases |tasks|
  {
    if tasks != [] {
      TasksPartitioned(tasks[..|tasks| - 1]);
    }
  }

  // ---------------------------------------------------------------- clusterTasks

  /** clusterTasks: the three queues, the pool filled category by category in ParallelOrder. */
  method ClusterTasks(tasks: seq<Task>, basket: map<Category, BasketEntry>) returns (qs: Queues)
    ensures qs.general == GeneralQueueOf(tasks)
    ensures qs.quickWins == NormaliseQuickWins(tasks)
    ensures qs.parallel == ParallelPoolOf(basket)
    ensures ValidQueue(qs.general) && ValidPool(qs.parallel)
  {
    var general := NormaliseGeneralTasks(tasks);
    var quickWins := NormaliseQuickWins(tasks);
    var pool: map<Category, int> := map[];
    var i := 0;
    while i < |ParallelOrder|
      invariant 0 <= i <= |ParallelOrder|
      invariant pool == PoolUpTo(basket, i)
    {
      var kind := ParallelOrder[i];
      var minutes := DeriveParallelMinutes(BasketAt(basket, kind));
      if minutes > 0 {
        pool := pool[kind := minutes];
      }
      i := i + 1;
    }
    qs := Queues(general, quickWins, pool);
  }
}
