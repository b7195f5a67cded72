/**
 * The itinerary engine's vocabulary: parallel-work categories, the numeric
 * input fields it coerces, the blocks it schedules, the windows it fills and
 * the per-segment spans it derives from them.
 */
module EngineTypes {
  import opened Common

  // ---------------------------------------------------------------- parallel categories

  datatype Category = Results | Calls | Charts | Advice

  /** The round-robin order of parallel sweeps. */
  const ParallelOrder: seq<Category> := [Results, Calls, Charts, Advice]

  const AllCategories: set<Category> := {Results, Calls, Charts, Advice}

  lemma CategoriesComplete()
    ensures forall c: Category :: c in AllCategories
  {
    forall c: Category ensures c in AllCategories {
      match c
      case Results =>
      case Calls =>
      case Charts =>
      case Advice =>
    }
  }

  const MinParallelSlice := 20
  const MaxParallelSlice := 40
  const MinParallelWindow := 12

  function CategoryName(c: Category): string
  {
    match c
    case Results => "Results"
    case Calls => "Calls"
    case Charts => "Charts"
    case Advice => "Advice"
  }

  /** Position of a category in ParallelOrder. */
  function CategoryIndex(c: Category): (i: nat)
    ensures i < |ParallelOrder| && ParallelOrder[i] == c
  {
    match c
    case Results => 0
    case Calls => 1
    case Charts => 2
    case Advice => 3
  }

  /** The yield a sweep of this category is scheduled with. */
  function CategoryYield(c: Category): (y: int)
    ensures 2 <= y <= 5
  {
    match c
    case Charts => 5
    case Results => 4
    case Calls => 3
    case Advice => 2
  }

  // ---------------------------------------------------------------- coerced numeric fields

  /**
   * A loosely typed numeric input field: absent (null or undefined), present
   * but not a finite number once converted, or a finite whole number.
   */
  datatype Field = Missing | Junk | Num(n: int)

  /** clampMinutes: a positive number is kept, anything else gives the fallback. */
  function ClampMinutes(v: Field, fallback: int): (r: int)
    ensures r == fallback || (v.Num? && r == v.n && r > 0)
    ensures fallback > 0 ==> r > 0
  {
    if v.Num? && v.n > 0 then v.n else fallback
  }

  // ---------------------------------------------------------------- blocks

  const KindQuickWin := "QuickWin"
  const KindCarryover := "CarryoverLog"
  const KindParallel := "Parallel"
  const KindSupervision := "Supervision"
  const KindSignOff := "SignOff"
  const KindWindDown := "WindDown"

  /**
   * A scheduled block. Times are minutes since midnight; the "HH:MM" strings
   * the engine attaches are ToTime(startMin) and ToTime(endMin). A carryover
   * log has no order of its own in the engine; it carries 0 here.
   */
  datatype Block = Block(
    title: string,
    minutes: int,
    kind: string,
    segment: string,
    yieldScore: int,
    meta: seq<string>,
    source: string,
    startMin: int,
    endMin: int,
    order: int)

  function TotalMinutes(bs: seq<Block>): int
    decreases |bs|
  {
    if bs == [] then 0 else bs[0].minutes + TotalMinutes(bs[1..])
  }

  lemma {:induction false} TotalMinutesAppend(a: seq<Block>, b: seq<Block>)
    ensures TotalMinutes(a + b) == TotalMinutes(a) + TotalMinutes(b)
    decreases |a|
  {
    if a == [] {
      assert a + b == b;
    } else {
      TotalMinutesAppend(a[1..], b);
      assert (a + b)[1..] == a[1..] + b;
    }
  }

  /** A block that takes part in sliding: in the segment and not a carryover log. */
  predicate IsEntry(b: Block, seg: string)
  {
    b.segment == seg && b.kind != KindCarryover
  }

  /** The blocks of a segment that take part in sliding, in sequence order. */
  function Entries(bs: seq<Block>, seg: string): (r: seq<Block>)
    ensures |r| <= |bs|
    ensures forall b :: b in r ==> IsEntry(b, seg)
    decreases |bs|
  {
    if bs == [] then []
    else if IsEntry(bs[0], seg) then [bs[0]] + Entries(bs[1..], seg)
    else Entries(bs[1..], seg)
  }

  /** Every other block, in sequence order. */
  function NonEntries(bs: seq<Block>, seg: string): (r: seq<Block>)
    ensures |r| <= |bs|
    ensures forall b :: b in r ==> !IsEntry(b, seg)
    decreases |bs|
  {
    if bs == [] then []
    else if IsEntry(bs[0], seg) then NonEntries(bs[1..], seg)
    else [bs[0]] + NonEntries(bs[1..], seg)
  }

  lemma {:induction false} EntriesAppend(a: seq<Block>, b: seq<Block>, seg: string)
    ensures Entries(a + b, seg) == Entries(a, seg) + Entries(b, seg)
    decreases |a|
  {
    if a == [] {
      assert a + b == b;
    } else {
      EntriesAppend(a[1..], b, seg);
      assert (a + b)[0] == a[0];
      assert (a + b)[1..] == a[1..] + b;
      if IsEntry(a[0], seg) {
        assert Entries(a + b, seg) == [a[0]] + Entries(a[1..] + b, seg);
      } else {
        assert Entries(a + b, seg) == Entries(a[1..] + b, seg);
      }
    }
  }

  lemma {:induction false} NonEntriesAppend(a: seq<Block>, b: seq<Block>, seg: string)
    ensures NonEntries(a + b, seg) == NonEntries(a, seg) + NonEntries(b, seg)
    decreases |a|
  {
    if a == [] {
      assert a + b == b;
    } else {
      NonEntriesAppend(a[1..], b, seg);
      assert (a + b)[0] == a[0];
      assert (a + b)[1..] == a[1..] + b;
      if IsEntry(a[0], seg) {
        assert NonEntries(a + b, seg) == NonEntries(a[1..] + b, seg);
      } else {
        assert NonEntries(a + b, seg) == [a[0]] + NonEntries(a[1..] + b, seg);
      }
    }
  }

  /** Blocks of another segment are untouched by selecting the non-entries of one segment. */
  lemma {:induction false} EntriesOfNonEntries(bs: seq<Block>, seg: string, other: string)
    requires other != seg
    ensures Entries(NonEntries(bs, seg), other) == Entries(bs, other)
    decreases |bs|
  {
    if bs != [] {
      EntriesOfNonEntries(bs[1..], seg, other);
    }
  }

  /** Carryover logs are never entries of any segment. */
  lemma {:induction false} EntriesOfCarryovers(bs: seq<Block>, seg: string)
    requires forall b :: b in bs ==> b.kind == KindCarryover
    ensures Entries(bs, seg) == []
    decreases |bs|
  {
    if bs != [] {
      EntriesOfCarryovers(bs[1..], seg);
    }
  }

  /** Two blocks whose time intervals do not overlap. */
  predicate Apart(a: Block, b: Block)
  {
    a.endMin <= b.startMin || b.endMin <= a.startMin
  }

  /** The blocks pairwise do not overlap, and each one's end is its start plus its minutes. */
  predicate NonOverlapping(bs: seq<Block>)
  {
    (forall k :: 0 <= k < |bs| ==> bs[k].minutes >= 0 && bs[k].endMin == bs[k].startMin + bs[k].minutes) &&
    (forall i, j :: 0 <= i < j < |bs| ==> Apart(bs[i], bs[j]))
  }

  /** Whether blocks overlap does not depend on the order they are listed in. */
  lemma NonOverlappingPermutation(a: seq<Block>, b: seq<Block>)
    requires NonOverlapping(a) && multiset(a) == multiset(b)
    ensures NonOverlapping(b)
  {
    forall i, j | 0 <= i < |a| && 0 <= j < |a| && i != j
      ensures Apart(a[i], a[j])
    {
      if j < i {
        assert Apart(a[j], a[i]);
      }
    }
    PairwisePermutation(a, b, (x, y) => Apart(x, y));
    forall k | 0 <= k < |b|
      ensures b[k].minutes >= 0 && b[k].endMin == b[k].startMin + b[k].minutes
    {
      assert b[k] in multiset(a);
      var i :| 0 <= i < |a| && a[i] == b[k];
    }
  }

  // ---------------------------------------------------------------- windows and segments

  /**
   * A planning window: the segment it belongs to ("AM", "PM"; empty when
   * missing), its type (None when null or undefined) and its start and end
   * clock strings (empty when missing).
   */
  datatype Window = Window(segment: string, kind: Option<string>, start: string, end: string)

  /** The extent of one segment, from its earliest window start to its latest window end. */
  datatype Span = Span(name: string, start: int, end: int)

  function Lookup(meta: seq<Span>, name: string): (r: Option<Span>)
    ensures r.Some? ==> r.value in meta && r.value.name == name
    ensures r.None? ==> forall sp :: sp in meta ==> sp.name != name
    decreases |meta|
  {
    if meta == [] then None
    else if meta[0].name == name then Some(meta[0])
    else Lookup(meta[1..], name)
  }

  function SpanNames(meta: seq<Span>): (r: seq<string>)
    ensures |r| == |meta| && forall i :: 0 <= i < |meta| ==> r[i] == meta[i].name
    decreases |meta|
  {
    if meta == [] then [] else [meta[0].name] + SpanNames(meta[1..])
  }
}
