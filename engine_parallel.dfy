/**
 * fillParallelWindow: a Clinical-Parallel window is filled with sweeps of
 * the parallel categories, visited round-robin in the order Results, Calls,
 * Charts, Advice, each sweep taking 20 to 40 minutes from its category's
 * pool.
 */
module EngineParallel {
  import opened Common
  import opened EngineTypes
  import opened EngineQueues
  import opened EngineGeneral

  /** What is left of the pool, and the minutes taken from it. */
  datatype Taken = Taken(pool: map<Category, int>, take: int)

  /** The minutes a category holds in the pool (0 when it has none). */
  function PoolAt(pool: map<Category, int>, c: Category): int
  {
    if c in pool then pool[c] else 0
  }

  function PoolTotal(pool: map<Category, int>): int
  {
    PoolAt(pool, Results) + PoolAt(pool, Calls) + PoolAt(pool, Charts) + PoolAt(pool, Advice)
  }

  /**
   * takeParallelMinutes: up to `slice` minutes are taken from the category;
   * a category that runs dry leaves the pool, and the others are untouched.
   * A category holding no more than the slice is consumed whole, whether or
   * not the caller then schedules what was taken.
   */
  function TakeParallelMinutes(pool: map<Category, int>, c: Category, slice: int): (r: Taken)
    requires ValidPool(pool)
    ensures ValidPool(r.pool)
    ensures r.take == (if c in pool then Min(slice, pool[c]) else 0)
  {
    var minutes := PoolAt(pool, c);
    if minutes <= 0 then Taken(pool, 0)
    else
      var take := Min(slice, minutes);
      if minutes - take <= 0 then Taken(pool - {c}, take) else Taken(pool[c := minutes - take], take)
  }

  /**
   * The category gives up what was taken, and is removed when that was all
   * it held (whether or not the caller then schedules it); the other
   * categories are untouched.
   */
  lemma TakeEffect(pool: map<Category, int>, c: Category, slice: int)
    requires ValidPool(pool)
    ensures var t := TakeParallelMinutes(pool, c, slice);
      var p, take := t.pool, t.take;
      (c in pool && take >= 0 ==> PoolAt(p, c) == pool[c] - take) &&
      (c in pool && pool[c] <= slice ==> c !in p) &&
      p.Keys <= pool.Keys &&
      forall k :: k != c ==> (k in p <==> k in pool) && PoolAt(p, k) == PoolAt(pool, k)
  {
  }

  /** Some category still holds enough for a sweep. */
  predicate AnyAtLeast(pool: map<Category, int>, n: int)
  {
    exists c :: c in pool && pool[c] >= n
  }

  /** anyParallelMinutes: a scan of the pool for a category holding at least 20 minutes. */
  method AnyParallelMinutes(pool: map<Category, int>) returns (found: bool)
    ensures found <==> AnyAtLeast(pool, MinParallelSlice)
  {
    var i := 0;
    while i < |ParallelOrder|
      invariant 0 <= i <= |ParallelOrder|
      invariant forall c :: CategoryIndex(c) < i ==> !(c in pool && pool[c] >= MinParallelSlice)
    {
      var c := ParallelOrder[i];
      assert CategoryIndex(c) == i;
      if c in pool && pool[c] >= MinParallelSlice {
        return true;
      }
      i := i + 1;
    }
    return false;
  }

  /** The block a sweep of a category becomes. */
  function SweepBlock(c: Category, take: int, seg: string, cursor: int, order: int): (b: Block)
    ensures b.minutes == take && b.startMin == cursor && b.endMin == cursor + take
    ensures b.order == order && b.segment == seg && b.kind == KindParallel
    ensures b.title == CategoryName(c) + " Sweep" && b.source == CategoryName(c) && b.yieldScore == CategoryYield(c)
    ensures SweepIndex(b) == CategoryIndex(c)
  {
    Block(CategoryName(c) + " Sweep", take, KindParallel, seg, CategoryYield(c), ["parallel"], CategoryName(c),
          cursor, cursor + take, order)
  }

  /** The state the fill threads along: the pool, the capacity left, the cursor and the order counter. */
  datatype ParState = ParState(pool: map<Category, int>, remaining: int, cursor: int, counter: int)

  datatype CycleResult = CycleResult(blocks: seq<Block>, state: ParState, consumed: bool)

  datatype ParOut = ParOut(blocks: seq<Block>, state: ParState)

  // ---------------------------------------------------------------- one round

  /**
   * One turn of the for-loop over ParallelOrder: category `c` is offered
   * min(40, capacity left) minutes, and what it gives becomes a sweep when
   * it is at least 20 minutes. Once less than 20 minutes of capacity are
   * left the turn does nothing; on an empty pool it does nothing either,
   * which is why the loop may stop there.
   */
  function SweepStep(cs: CycleResult, c: Category, seg: string): (r: CycleResult)
    requires ValidPool(cs.state.pool)
    ensures ValidPool(r.state.pool)
    ensures |cs.blocks| <= |r.blocks| && r.blocks[..|cs.blocks|] == cs.blocks
  {
    var s := cs.state;
    if s.remaining < MinParallelSlice then cs
    else
      var t := TakeParallelMinutes(s.pool, c, Min(MaxParallelSlice, s.remaining));
      if t.take < MinParallelSlice then cs.(state := s.(pool := t.pool))
      else
        CycleResult(cs.blocks + [SweepBlock(c, t.take, seg, s.cursor, s.counter + 1)],
                    ParState(t.pool, s.remaining - t.take, s.cursor + t.take, s.counter + 1), true)
  }

  /** The first `k` turns of a round. */
  function Round(cs: CycleResult, k: nat, seg: string): (r: CycleResult)
    requires ValidPool(cs.state.pool) && k <= |ParallelOrder|
    ensures ValidPool(r.state.pool)
  {
    if k == 0 then cs else SweepStep(Round(cs, k - 1, seg), ParallelOrder[k - 1], seg)
  }

  /** A state in which every further turn does nothing. */
  predicate Idle(s: ParState)
  {
    s.remaining < MinParallelSlice || s.pool == map[]
  }

  /** The capacity and minutes bookkeeping of a fill, in one predicate. */
  predicate Accounted(s: ParState, blocks: seq<Block>, t: ParState)
  {
    Contiguous(blocks, s.cursor) &&
    t.remaining == s.remaining - TotalMinutes(blocks) &&
    t.cursor == s.cursor + TotalMinutes(blocks) &&
    t.counter == s.counter + |blocks| &&
    (forall k :: 0 <= k < |blocks| ==> blocks[k].order == s.counter + 1 + k) &&
    PoolTotal(s.pool) - PoolTotal(t.pool) >= TotalMinutes(blocks) &&
    (forall c :: PoolAt(t.pool, c) <= PoolAt(s.pool, c))
  }

  /** A sweep of some category, of 20 to 40 minutes, in the given segment. */
  predicate IsSweep(b: Block, seg: string)
  {
    MinParallelSlice <= b.minutes <= MaxParallelSlice && b.kind == KindParallel && b.segment == seg &&
    exists c :: b.title == CategoryName(c) + " Sweep" && b.source == CategoryName(c) && b.yieldScore == CategoryYield(c)
  }

  /** The position in ParallelOrder of the category a sweep is for. */
  function SweepIndex(b: Block): int
  {
    if b.source == "Results" then 0
    else if b.source == "Calls" then 1
    else if b.source == "Charts" then 2
    else if b.source == "Advice" then 3
    else -1
  }

  lemma OrderIndex(k: nat)
    requires k < |ParallelOrder|
    ensures CategoryIndex(ParallelOrder[k]) == k
  {
  }

  lemma AccountedAppend(s: ParState, a: seq<Block>, mid: ParState, b: seq<Block>, t: ParState)
    requires Accounted(s, a, mid) && Accounted(mid, b, t)
    ensures Accounted(s, a + b, t)
  {
    TotalMinutesAppend(a, b);
    var ab := a + b;
    forall k | 0 <= k < |ab| ensures ab[k].endMin == ab[k].startMin + ab[k].minutes {
      if k >= |a| { assert ab[k] == b[k - |a|]; }
    }
    forall k | 0 < k < |ab| ensures ab[k].startMin == ab[k - 1].endMin {
      if k > |a| {
        assert ab[k] == b[k - |a|] && ab[k - 1] == b[k - 1 - |a|];
      } else if k == |a| {
        assert ab[k] == b[0];
        LastEndsAtTotal(a, s.cursor);
      }
    }
    forall k | 0 <= k < |ab| ensures ab[k].order == s.counter + 1 + k {
      if k >= |a| { assert ab[k] == b[k - |a|]; }
    }
  }

  lemma TakeAccounted(pool: map<Category, int>, c: Category, slice: int)
    requires ValidPool(pool) && slice >= 0
    ensures var t := TakeParallelMinutes(pool, c, slice);
      PoolTotal(pool) - PoolTotal(t.pool) == t.take && forall k :: PoolAt(t.pool, k) <= PoolAt(pool, k)
  {
  }

  /** What one turn adds is accounted for against the state before it. */
  lemma StepAccounted(cs: CycleResult, c: Category, seg: string)
    requires ValidPool(cs.state.pool)
    ensures var r := SweepStep(cs, c, seg);
      Accounted(cs.state, r.blocks[|cs.blocks|..], r.state) &&
      (cs.state.remaining >= 0 ==> r.state.remaining >= 0)
  {
    var s := cs.state;
    var r := SweepStep(cs, c, seg);
    if s.remaining >= MinParallelSlice {
      var slice := Min(MaxParallelSlice, s.remaining);
      TakeAccounted(s.pool, c, slice);
      var t := TakeParallelMinutes(s.pool, c, slice);
      if t.take >= MinParallelSlice {
        var b := SweepBlock(c, t.take, seg, s.cursor, s.counter + 1);
        assert r.blocks[|cs.blocks|..] == [b];
        assert TotalMinutes([b]) == t.take;
      } else {
        assert r.blocks[|cs.blocks|..] == [];
      }
    } else {
      assert r.blocks[|cs.blocks|..] == [];
    }
  }

  /** What one turn adds is a sweep for `c`, and only when a sweep was made is the round marked consumed. */
  lemma StepSweeps(cs: CycleResult, c: Category, seg: string)
    requires ValidPool(cs.state.pool)
    ensures var r := SweepStep(cs, c, seg);
      (forall k :: |cs.blocks| <= k < |r.blocks| ==> IsSweep(r.blocks[k], seg) && SweepIndex(r.blocks[k]) == CategoryIndex(c)) &&
      |r.blocks| <= |cs.blocks| + 1 &&
      r.consumed == (cs.consumed || |r.blocks| > |cs.blocks|)
  {
    var s := cs.state;
    if s.remaining >= MinParallelSlice {
      var t := TakeParallelMinutes(s.pool, c, Min(MaxParallelSlice, s.remaining));
      if t.take >= MinParallelSlice {
        assert IsSweep(SweepBlock(c, t.take, seg, s.cursor, s.counter + 1), seg);
      }
    }
  }

  /** The two outcomes of a turn taken with at least 20 minutes of capacity left. */
  lemma StepCases(cs: CycleResult, c: Category, seg: string)
    requires ValidPool(cs.state.pool) && cs.state.remaining >= MinParallelSlice
    ensures var s := cs.state;
      var t := TakeParallelMinutes(s.pool, c, Min(MaxParallelSlice, s.remaining));
      SweepStep(cs, c, seg) ==
        if t.take < MinParallelSlice then CycleResult(cs.blocks, s.(pool := t.pool), cs.consumed)
        else CycleResult(cs.blocks + [SweepBlock(c, t.take, seg, s.cursor, s.counter + 1)],
                         ParState(t.pool, s.remaining - t.take, s.cursor + t.take, s.counter + 1), true)
  {
  }

  /** A turn in an idle state does nothing. */
  lemma StepIdle(cs: CycleResult, c: Category, seg: string)
    requires ValidPool(cs.state.pool) && Idle(cs.state)
    ensures SweepStep(cs, c, seg) == cs
  {
  }

  /** The bookkeeping of the first `k` turns of a round started in `s`. */
  lemma {:induction false} RoundAccounted(s: ParState, k: nat, seg: string)
    requires ValidPool(s.pool) && k <= |ParallelOrder|
    ensures var r := Round(CycleResult([], s, false), k, seg);
      Accounted(s, r.blocks, r.state) && (s.remaining >= 0 ==> r.state.remaining >= 0)
  {
    if k == 0 {
      assert TotalMinutes([]) == 0;
    } else {
      var prev := Round(CycleResult([], s, false), k - 1, seg);
      var r := Round(CycleResult([], s, false), k, seg);
      RoundAccounted(s, k - 1, seg);
      StepAccounted(prev, ParallelOrder[k - 1], seg);
      AccountedAppend(s, prev.blocks, prev.state, r.blocks[|prev.blocks|..], r.state);
      assert prev.blocks + r.blocks[|prev.blocks|..] == r.blocks;
    }
  }

  /**
   * The first `k` turns of a round emit only sweeps, for categories before
   * position `k`, in strictly increasing ParallelOrder position; the round is
   * consumed exactly when it emitted something.
   */
  lemma {:induction false} RoundSweeps(s: ParState, k: nat, seg: string)
    requires ValidPool(s.pool) && k <= |ParallelOrder|
    ensures var r := Round(CycleResult([], s, false), k, seg);
      (forall j :: 0 <= j < |r.blocks| ==> IsSweep(r.blocks[j], seg) && 0 <= SweepIndex(r.blocks[j]) < k) &&
      (forall i, j :: 0 <= i < j < |r.blocks| ==> SweepIndex(r.blocks[i]) < SweepIndex(r.blocks[j])) &&
      (r.consumed <==> r.blocks != [])
  {
    if k > 0 {
      var prev := Round(CycleResult([], s, false), k - 1, seg);
      var r := Round(CycleResult([], s, false), k, seg);
      RoundSweeps(s, k - 1, seg);
      StepSweeps(prev, ParallelOrder[k - 1], seg);
      OrderIndex(k - 1);
      forall j | 0 <= j < |prev.blocks| ensures r.blocks[j] == prev.blocks[j] {
        assert r.blocks[..|prev.blocks|][j] == prev.blocks[j];
      }
    }
  }

  /** Turns taken after the state has become idle change nothing. */
  lemma {:induction false} RoundIdle(cs: CycleResult, n: nat, k: nat, seg: string)
    requires ValidPool(cs.state.pool) && n <= k <= |ParallelOrder|
    requires Idle(Round(cs, n, seg).state)
    ensures Round(cs, k, seg) == Round(cs, n, seg)
    decreases k - n
  {
    if n < k {
      RoundIdle(cs, n, k - 1, seg);
      StepIdle(Round(cs, k - 1, seg), ParallelOrder[k - 1], seg);
    }
  }

  /** The for-loop over ParallelOrder, run once from `s`. */
  function Cycle(s: ParState, seg: string): (r: CycleResult)
    requires ValidPool(s.pool)
    ensures ValidPool(r.state.pool)
    ensures r.consumed <==> r.blocks != []
    ensures Accounted(s, r.blocks, r.state)
    ensures s.remaining >= 0 ==> r.state.remaining >= 0
    ensures forall j :: 0 <= j < |r.blocks| ==> IsSweep(r.blocks[j], seg)
    ensures r.consumed ==> r.state.remaining <= s.remaining - MinParallelSlice
  {
    RoundAccounted(s, |ParallelOrder|, seg);
    RoundSweeps(s, |ParallelOrder|, seg);
    var r := Round(CycleResult([], s, false), |ParallelOrder|, seg);
    SweepsTotal(r.blocks, seg);
    r
  }

  /** Sweeps of at least 20 minutes each add up to at least 20 minutes a sweep. */
  lemma {:induction false} SweepsTotal(bs: seq<Block>, seg: string)
    requires forall j :: 0 <= j < |bs| ==> IsSweep(bs[j], seg)
    ensures TotalMinutes(bs) >= MinParallelSlice * |bs|
    decreases |bs|
  {
    if bs != [] {
      assert IsSweep(bs[0], seg);
      SweepsTotal(bs[1..], seg);
    }
  }

  // ---------------------------------------------------------------- the whole window

  /** The while-loop: rounds are run while capacity, pool and a sweep-sized category remain. */
  function ParallelFill(s: ParState, seg: string): ParOut
    requires ValidPool(s.pool)
    decreases Max(s.remaining, 0)
  {
    if s.remaining < MinParallelSlice || |s.pool| == 0 || !AnyAtLeast(s.pool, MinParallelSlice) then ParOut([], s)
    else
      var cy := Cycle(s, seg);
      if !cy.consumed then ParOut([], cy.state)
      else
        var rest := ParallelFill(cy.state, seg);
        ParOut(cy.blocks + rest.blocks, rest.state)
  }

  /**
   * The fill emits only sweeps of 20 to 40 minutes, laid contiguously from
   * the window start with consecutive orders, using no more than the
   * capacity, and takes from the pool at least the minutes it schedules (a
   * category holding less than 20 minutes at its turn is consumed without a
   * block).
   */
  lemma {:induction false} ParallelFillShape(s: ParState, seg: string)
    requires ValidPool(s.pool)
    ensures var r := ParallelFill(s, seg);
      Accounted(s, r.blocks, r.state) &&
      (forall k :: 0 <= k < |r.blocks| ==> IsSweep(r.blocks[k], seg)) &&
      (s.remaining >= 0 ==> r.state.remaining >= 0) &&
      ValidPool(r.state.pool)
    decreases Max(s.remaining, 0)
  {
    if !(s.remaining < MinParallelSlice || |s.pool| == 0 || !AnyAtLeast(s.pool, MinParallelSlice)) {
      var cy := Cycle(s, seg);
      if cy.consumed {
        ParallelFillShape(cy.state, seg);
        var rest := ParallelFill(cy.state, seg);
        AccountedAppend(s, cy.blocks, cy.state, rest.blocks, rest.state);
        var bs := cy.blocks + rest.blocks;
        forall k | 0 <= k < |bs| ensures IsSweep(bs[k], seg) {
          if k >= |cy.blocks| { assert bs[k] == rest.blocks[k - |cy.blocks|]; }
        }
      } else {
        assert cy.blocks == [];
      }
    } else {
      assert TotalMinutes([]) == 0;
    }
  }

  /** Within one round the sweeps follow ParallelOrder: no category comes round twice. */
  lemma RoundFollowsOrder(s: ParState, seg: string)
    requires ValidPool(s.pool)
    ensures var r := Cycle(s, seg);
      forall i, j :: 0 <= i < j < |r.blocks| ==> SweepIndex(r.blocks[i]) < SweepIndex(r.blocks[j])
  {
    RoundSweeps(s, |ParallelOrder|, seg);
  }

  /** `k` is the position of the first category in ParallelOrder that holds enough for a sweep. */
  predicate FirstSweepable(pool: map<Category, int>, k: nat)
  {
    k < |ParallelOrder| && PoolAt(pool, ParallelOrder[k]) >= MinParallelSlice &&
    forall j :: 0 <= j < k ==> PoolAt(pool, ParallelOrder[j]) < MinParallelSlice
  }

  /** Before the first sweepable category, turns only drain the small categories they visit. */
  lemma {:induction false} RoundBeforeFirst(s: ParState, n: nat, k: nat, seg: string)
    requires ValidPool(s.pool) && s.remaining >= MinParallelSlice
    requires FirstSweepable(s.pool, k) && n <= k
    ensures var r := Round(CycleResult([], s, false), n, seg);
      r.blocks == [] && r.state.remaining == s.remaining && r.state.cursor == s.cursor && r.state.counter == s.counter &&
      forall j :: n <= j < |ParallelOrder| ==> PoolAt(r.state.pool, ParallelOrder[j]) == PoolAt(s.pool, ParallelOrder[j])
  {
    if n > 0 {
      RoundBeforeFirst(s, n - 1, k, seg);
      var prev := Round(CycleResult([], s, false), n - 1, seg);
      var c := ParallelOrder[n - 1];
      var slice := Min(MaxParallelSlice, prev.state.remaining);
      TakeEffect(prev.state.pool, c, slice);
      OrderIndex(n - 1);
      forall j | n <= j < |ParallelOrder|
        ensures PoolAt(Round(CycleResult([], s, false), n, seg).state.pool, ParallelOrder[j]) == PoolAt(s.pool, ParallelOrder[j])
      {
        OrderIndex(j);
      }
    }
  }

  /** A round's first sweep is for the first category holding at least 20 minutes. */
  lemma CycleFirst(s: ParState, k: nat, seg: string)
    requires ValidPool(s.pool) && s.remaining >= MinParallelSlice
    requires FirstSweepable(s.pool, k)
    ensures var r := Cycle(s, seg);
      r.blocks != [] &&
      r.blocks[0] == SweepBlock(ParallelOrder[k], Min(Min(MaxParallelSlice, s.remaining), PoolAt(s.pool, ParallelOrder[k])),
                                seg, s.cursor, s.counter + 1)
  {
    var c := ParallelOrder[k];
    var init := CycleResult([], s, false);
    RoundBeforeFirst(s, k, k, seg);
    var before := Round(init, k, seg);
    assert c in before.state.pool;
    var b := SweepBlock(c, Min(Min(MaxParallelSlice, s.remaining), PoolAt(s.pool, c)), seg, s.cursor, s.counter + 1);
    StepCases(before, c, seg);
    assert Round(init, k + 1, seg).blocks == [b];
    RoundPrefix(init, k + 1, |ParallelOrder|, seg);
  }

  /**
   * The window's first sweep is for the first category, in the order
   * Results, Calls, Charts, Advice, that holds at least 20 minutes, and it
   * takes min(40, capacity, that category's minutes).
   */
  lemma ParallelFillFirst(s: ParState, k: nat, seg: string)
    requires ValidPool(s.pool) && s.remaining >= MinParallelSlice
    requires FirstSweepable(s.pool, k)
    ensures var r := ParallelFill(s, seg);
      r.blocks != [] &&
      r.blocks[0] == SweepBlock(ParallelOrder[k], Min(Min(MaxParallelSlice, s.remaining), PoolAt(s.pool, ParallelOrder[k])),
                                seg, s.cursor, s.counter + 1)
  {
    var c := ParallelOrder[k];
    assert c in s.pool && s.pool[c] >= MinParallelSlice;
    assert |s.pool| > 0;
    CycleFirst(s, k, seg);
    var cy := Cycle(s, seg);
    assert ParallelFill(s, seg).blocks == cy.blocks + ParallelFill(cy.state, seg).blocks;
  }

  /** Later turns only append to what earlier turns emitted. */
  lemma {:induction false} RoundPrefix(cs: CycleResult, n: nat, k: nat, seg: string)
    requires ValidPool(cs.state.pool) && n <= k <= |ParallelOrder|
    ensures |Round(cs, n, seg).blocks| <= |Round(cs, k, seg).blocks|
    ensures Round(cs, k, seg).blocks[..|Round(cs, n, seg).blocks|] == Round(cs, n, seg).blocks
    decreases k - n
  {
    if n < k {
      RoundPrefix(cs, n, k - 1, seg);
      var a := Round(cs, n, seg).blocks;
      var b := Round(cs, k - 1, seg).blocks;
      var prev := Round(cs, k - 1, seg);
      assert Round(cs, k, seg) == SweepStep(prev, ParallelOrder[k - 1], seg);
      var c := Round(cs, k, seg).blocks;
      assert c[..|b|] == b;
      assert c[..|a|] == c[..|b|][..|a|];
    }
  }

  /** One more turn of a round, in the terms the for-loop updates its variables. */
  lemma RoundTurn(start: ParState, idx: nat, seg: string, blocks: seq<Block>, s: ParState, consumed: bool)
    requires ValidPool(start.pool) && idx < |ParallelOrder| && s.remaining >= MinParallelSlice
    requires Round(CycleResult([], start, false), idx, seg) == CycleResult(blocks, s, consumed)
    ensures var t := TakeParallelMinutes(s.pool, ParallelOrder[idx], Min(MaxParallelSlice, s.remaining));
      Round(CycleResult([], start, false), idx + 1, seg) ==
        if t.take < MinParallelSlice then CycleResult(blocks, s.(pool := t.pool), consumed)
        else CycleResult(blocks + [SweepBlock(ParallelOrder[idx], t.take, seg, s.cursor, s.counter + 1)],
                         ParState(t.pool, s.remaining - t.take, s.cursor + t.take, s.counter + 1), true)
  {
    StepCases(CycleResult(blocks, s, consumed), ParallelOrder[idx], seg);
  }

  /** The body of the while-loop: one pass of the for-loop over ParallelOrder. */
  method RunRound(start: ParState, seg: string) returns (blocks: seq<Block>, s: ParState, consumed: bool)
    requires ValidPool(start.pool)
    ensures CycleResult(blocks, s, consumed) == Round(CycleResult([], start, false), |ParallelOrder|, seg)
  {
    blocks, s, consumed := [], start, false;
    var idx := 0;
    while idx < |ParallelOrder|
      invariant 0 <= idx <= |ParallelOrder|
      invariant Round(CycleResult([], start, false), idx, seg) == CycleResult(blocks, s, consumed)
    {
      if s.remaining < MinParallelSlice {
        break;
      }
      var kind := ParallelOrder[idx];
      var slice := Min(MaxParallelSlice, s.remaining);
      RoundTurn(start, idx, seg, blocks, s, consumed);
      var t := TakeParallelMinutes(s.pool, kind, slice);
      if t.take < MinParallelSlice {
        s := s.(pool := t.pool);
      } else {
        var block := SweepBlock(kind, t.take, seg, s.cursor, s.counter + 1);
        blocks := blocks + [block];
        s := ParState(t.pool, s.remaining - t.take, s.cursor + t.take, s.counter + 1);
        consumed := true;
      }
      idx := idx + 1;
      assert Round(CycleResult([], start, false), idx, seg) == CycleResult(blocks, s, consumed);
      if s.pool == map[] {
        break;
      }
    }
    if idx < |ParallelOrder| {
      RoundIdle(CycleResult([], start, false), idx, |ParallelOrder|, seg);
    }
  }

  /**
   * fillParallelWindow. Windows under 12 minutes get nothing; otherwise the
   * window's sweeps are appended to `out` and the pool and the order counter
   * are threaded through.
   */
  method FillParallelWindow(out: seq<Block>, seg: string, start: int, end: int, multiplier: real,
                            pool: map<Category, int>, counter: int)
    returns (out': seq<Block>, pool': map<Category, int>, counter': int)
    requires ValidPool(pool)
    ensures Max(end - start, 0) < MinParallelWindow ==> out' == out && pool' == pool && counter' == counter
    ensures Max(end - start, 0) >= MinParallelWindow ==>
      var r := ParallelFill(ParState(pool, WindowCap(start, end, multiplier), start, counter), seg);
      out' == out + r.blocks && pool' == r.state.pool && counter' == r.state.counter
    ensures ValidPool(pool')
  {
    var duration := Max(end - start, 0);
    if duration < MinParallelWindow {
      return out, pool, counter;
    }
    var s0 := ParState(pool, WindowCap(start, end, multiplier), start, counter);
    var s := s0;
    var added: seq<Block> := [];
    var stop := false;
    while !stop && s.remaining >= MinParallelSlice && |s.pool| > 0
      invariant ValidPool(s.pool)
      invariant !stop ==> ParallelFill(s0, seg) == ParOut(added + ParallelFill(s, seg).blocks, ParallelFill(s, seg).state)
      invariant stop ==> ParallelFill(s0, seg) == ParOut(added, s)
      decreases !stop, Max(s.remaining, 0)
    {
      var any := AnyParallelMinutes(s.pool);
      if !any {
        break;
      }
      var cycleBlocks, next, consumed := RunRound(s, seg);
      s := next;
      if !consumed {
        stop := true;
        assert added + [] == added;
      } else {
        assert added + (cycleBlocks + ParallelFill(s, seg).blocks) == (added + cycleBlocks) + ParallelFill(s, seg).blocks;
        added := added + cycleBlocks;
      }
    }
    if !stop {
      assert ParallelFill(s, seg) == ParOut([], s);
      assert added + [] == added;
    }
    out' := out + added;
    pool' := s.pool;
    counter' := s.counter;
  }
}
