/**
 * The Morning Launch checklist: five steps whose ticked indexes are kept
 * for the current day only. A stored state is cleaned on load (indexes
 * de-duplicated, bounded and sorted; `completed` only with all five
 * ticked), and ticking or unticking a step updates the state.
 *
 * Today's date stamp and the current time are parameters; the stored
 * state is what JSON.parse returned from local storage, None when nothing
 * could be read.
 */
module MorningLaunch {
  import opened Common
  import opened StableSort

  const Steps: seq<string> := [
    "Open Adaptive Planner",
    "Review patient roster",
    "Confirm resident assignments",
    "Check inbox (\U{2264}15 min)",
    "Set energy slider and hit Launch"
  ]

  // ---------------------------------------------------------------- sets of indexes

  /** `Array.from(new Set(xs))`: the first occurrence of each value, in order. */
  function Dedup(xs: seq<int>): seq<int>
  {
    if xs == [] then []
    else
      var n := |xs| - 1;
      var d := Dedup(xs[..n]);
      if xs[n] in d then d else d + [xs[n]]
  }

  lemma {:induction false} DedupSpec(xs: seq<int>)
    ensures NoDuplicates(Dedup(xs))
    ensures forall x :: x in Dedup(xs) <==> x in xs
    decreases |xs|
  {
    if xs != [] {
      var n := |xs| - 1;
      DedupSpec(xs[..n]);
      assert xs == xs[..n] + [xs[n]];
    }
  }

  function Neg(x: int): int { 0 - x }

  /** `.sort((a, b) => a - b)`: ascending numeric order. */
  function SortAsc(xs: seq<int>): seq<int>
  {
    SortDesc(xs, Neg)
  }

  predicate StrictlyAscending(xs: seq<int>)
  {
    forall i, j :: 0 <= i < j < |xs| ==> xs[i] < xs[j]
  }

  lemma {:induction false} NoDuplicatesCounts(s: seq<int>)
    requires NoDuplicates(s)
    ensures forall x :: multiset(s)[x] <= 1
    decreases |s|
  {
    if s != [] {
      var n := |s| - 1;
      NoDuplicatesCounts(s[..n]);
      assert s == s[..n] + [s[n]];
      assert s[n] !in s[..n];
    }
  }

  lemma DuplicateCounts(s: seq<int>, i: nat, j: nat)
    requires i < j < |s|
    ensures s[i] == s[j] ==> multiset(s)[s[j]] >= 2
  {
    assert s == s[..j] + [s[j]] + s[j + 1..];
    assert s[..j][i] == s[i];
    assert multiset(s)[s[j]] == multiset(s[..j])[s[j]] + 1 + multiset(s[j + 1..])[s[j]];
  }

  lemma CountsNoDuplicates(s: seq<int>)
    requires forall x :: multiset(s)[x] <= 1
    ensures NoDuplicates(s)
  {
    forall i, j | 0 <= i < j < |s| ensures s[i] != s[j] {
      DuplicateCounts(s, i, j);
    }
  }

  /** Sorting a duplicate-free list ascending gives a strictly ascending list with the same elements. */
  lemma SortedSet(xs: seq<int>)
    requires NoDuplicates(xs)
    ensures StrictlyAscending(SortAsc(xs))
    ensures forall x :: x in SortAsc(xs) <==> x in xs
  {
    var r := SortAsc(xs);
    SortDescCorrect(xs, Neg);
    NoDuplicatesCounts(xs);
    CountsNoDuplicates(r);
    forall i, j | 0 <= i < j < |r| ensures r[i] < r[j] {
      assert Neg(r[i]) >= Neg(r[j]);
    }
    forall x ensures x in r <==> x in xs {
      assert x in r <==> x in multiset(r);
      assert x in xs <==> x in multiset(xs);
    }
  }

  /** A de-duplicated, sorted list: strictly ascending and holding exactly the values of the input. */
  lemma SortedDedup(xs: seq<int>)
    ensures StrictlyAscending(SortAsc(Dedup(xs)))
    ensures forall x :: x in SortAsc(Dedup(xs)) <==> x in xs
  {
    DedupSpec(xs);
    SortedSet(Dedup(xs));
  }

  // ---------------------------------------------------------------- sanitizeCompletedIndexes

  /** The entries that parse to an index of a step, in order. */
  function InRange(parsed: seq<Option<int>>): seq<int>
  {
    if parsed == [] then []
    else
      var n := |parsed| - 1;
      InRange(parsed[..n]) + (if parsed[n].Some? && 0 <= parsed[n].value < |Steps| then [parsed[n].value] else [])
  }

  lemma {:induction false} InRangeSpec(parsed: seq<Option<int>>)
    ensures forall x :: x in InRange(parsed) <==> Some(x) in parsed && 0 <= x < |Steps|
    decreases |parsed|
  {
    if parsed != [] {
      var n := |parsed| - 1;
      InRangeSpec(parsed[..n]);
      assert parsed == parsed[..n] + [parsed[n]];
    }
  }

  /**
   * sanitizeCompletedIndexes: `indexes` is None when it is not an array;
   * each entry is what Number.parseInt makes of it, None for NaN.
   */
  function Sanitize(indexes: Option<seq<Option<int>>>): seq<int>
  {
    if indexes.None? then [] else SortAsc(Dedup(InRange(indexes.value)))
  }

  /**
   * The cleaned list is strictly ascending (so free of duplicates), every
   * index names a step, and it holds exactly the entries that parsed to a
   * step's index; a non-array gives none.
   */
  lemma SanitizeSpec(indexes: Option<seq<Option<int>>>)
    ensures indexes.None? ==> Sanitize(indexes) == []
    ensures StrictlyAscending(Sanitize(indexes))
    ensures forall x :: x in Sanitize(indexes) ==> 0 <= x < |Steps|
    ensures indexes.Some? ==> forall x :: x in Sanitize(indexes) <==> Some(x) in indexes.value && 0 <= x < |Steps|
    ensures |Sanitize(indexes)| <= |Steps|
  {
    if indexes.Some? {
      InRangeSpec(indexes.value);
      SortedDedup(InRange(indexes.value));
    }
    AscendingBounded(Sanitize(indexes));
  }

  /** A strictly ascending list of values in [0, n) has at most n entries. */
  lemma AscendingBoundedBy(xs: seq<int>, n: nat)
    requires StrictlyAscending(xs) && forall x :: x in xs ==> 0 <= x < n
    ensures |xs| <= n
  {
    if |xs| > 0 {
      AscendingFrom(xs, |xs| - 1);
      assert xs[|xs| - 1] in xs;
    }
  }

  /** A strictly ascending list of step indexes has at most one entry per step. */
  lemma AscendingBounded(xs: seq<int>)
    requires StrictlyAscending(xs) && forall x :: x in xs ==> 0 <= x < |Steps|
    ensures |xs| <= |Steps|
  {
    AscendingBoundedBy(xs, |Steps|);
  }

  /** Missing one value of [0, n), a strictly ascending list of values in [0, n) has fewer than n entries. */
  lemma AscendingMissing(xs: seq<int>, n: int, v: int)
    requires StrictlyAscending(xs) && forall x :: x in xs ==> 0 <= x < n
    requires 0 <= v < n && v !in xs
    ensures |xs| < n
  {
    var ys := seq(|xs|, i requires 0 <= i < |xs| => if xs[i] < v then xs[i] else xs[i] - 1);
    forall i, j | 0 <= i < j < |ys| ensures ys[i] < ys[j] {
      assert xs[i] < xs[j] && xs[i] != v && xs[j] != v;
    }
    forall y | y in ys ensures 0 <= y < n - 1 {
      var i :| 0 <= i < |ys| && ys[i] == y;
      assert xs[i] in xs && xs[i] != v;
    }
    AscendingBoundedBy(ys, n - 1);
  }

  lemma {:induction false} AscendingFrom(xs: seq<int>, i: nat)
    requires StrictlyAscending(xs) && i < |xs| && forall x :: x in xs ==> x >= 0
    ensures xs[i] >= i
    decreases i
  {
    if i > 0 {
      AscendingFrom(xs, i - 1);
    } else {
      assert xs[0] in xs;
    }
  }

  // ---------------------------------------------------------------- ensureState

  /** The checklist state as the page keeps it. */
  datatype LaunchState = LaunchState(date: string, completed: bool, completedAt: Option<string>,
                                     collapsed: bool, completedItems: seq<int>)

  /**
   * A stored state as read back: `collapsed` is None when it is not a
   * boolean, `completedAt` is "" when falsy, `completedItems` None when not
   * an array.
   */
  datatype Stored = Stored(date: Option<string>, completed: Option<Json>, completedAt: string,
                           collapsed: Option<bool>, completedItems: Option<seq<Option<int>>>)

  /** ensureState(existing, { startCollapsed }) on day `today`, at time `now`. */
  function EnsureState(existing: Option<Stored>, startCollapsed: bool, today: string, now: string): (s: LaunchState)
    ensures s.date == today
    ensures existing.None? || existing.value.date != Some(today) ==>
      s == LaunchState(today, false, None, startCollapsed, [])
    ensures s.completed ==> |s.completedItems| == |Steps|
    ensures s.completedAt.None? <==> !s.completed
  {
    if existing.None? || existing.value.date != Some(today) then
      LaunchState(today, false, None, startCollapsed, [])
    else
      var e := existing.value;
      var items := Sanitize(e.completedItems);
      var collapsed := if e.collapsed.Some? then e.collapsed.value else startCollapsed;
      var completed := Truthy(e.completed) && |items| == |Steps|;
      var completedAt := if completed then Some(if e.completedAt != "" then e.completedAt else now) else None;
      LaunchState(today, completed, completedAt, collapsed, items)
  }

  /**
   * On the same day the state keeps its cleaned indexes, its stored
   * boolean `collapsed` (else the start setting), and stays complete only
   * when it was stored complete with all steps ticked, keeping its stamp.
   */
  lemma EnsureStateSameDay(e: Stored, startCollapsed: bool, today: string, now: string)
    requires e.date == Some(today)
    ensures var s := EnsureState(Some(e), startCollapsed, today, now);
      s.completedItems == Sanitize(e.completedItems) &&
      StrictlyAscending(s.completedItems) &&
      (s.collapsed == if e.collapsed.Some? then e.collapsed.value else startCollapsed) &&
      (s.completed <==> Truthy(e.completed) && |Sanitize(e.completedItems)| == |Steps|) &&
      (s.completed && e.completedAt != "" ==> s.completedAt == Some(e.completedAt))
  {
    SanitizeSpec(e.completedItems);
  }

  // ---------------------------------------------------------------- the page state

  /** The ticked indexes after a checkbox changes: the index added or removed, then sorted. */
  function Toggled(items: seq<int>, index: int, checked: bool): seq<int>
  {
    if checked then SortAsc(Dedup(items + [index]))
    else SortAsc(Dedup(RemoveAll(items, index)))
  }

  /** `set.delete(index)` on the list's values. */
  function RemoveAll(xs: seq<int>, x: int): (r: seq<int>)
    ensures forall y :: y in r <==> y in xs && y != x
    decreases |xs|
  {
    if xs == [] then []
    else
      var n := |xs| - 1;
      RemoveAll(xs[..n], x) + (if xs[n] == x then [] else [xs[n]])
  }

  /**
   * Ticking adds the index and unticking removes it; either way the list
   * stays strictly ascending and nothing else changes in it.
   */
  lemma ToggledSpec(items: seq<int>, index: int, checked: bool)
    ensures StrictlyAscending(Toggled(items, index, checked))
    ensures checked ==> forall x :: x in Toggled(items, index, checked) <==> x in items || x == index
    ensures !checked ==> forall x :: x in Toggled(items, index, checked) <==> x in items && x != index
  {
    if checked {
      SortedDedup(items + [index]);
    } else {
      SortedDedup(RemoveAll(items, index));
    }
  }

  /** The page's copy of the state, which the checkbox and toggle handlers update. */
  class Launch {
    var date: string
    var completed: bool
    var completedAt: Option<string>
    var collapsed: bool
    var completedItems: seq<int>

    function State(): LaunchState
      reads this
    {
      LaunchState(date, completed, completedAt, collapsed, completedItems)
    }

    /**
     * The page's start: ensureState over the stored state, collapsed unless
     * the page opens before eight. The state is consistent: stamped exactly
     * when complete, complete only with every step ticked, and the ticked
     * indexes strictly ascending and in range.
     */
    constructor (existing: Option<Stored>, beforeEight: bool, today: string, now: string)
      ensures State() == EnsureState(existing, !beforeEight, today, now)
      ensures date == today && (completedAt.None? <==> !completed)
      ensures completed ==> |completedItems| == |Steps|
      ensures StrictlyAscending(completedItems) && forall x :: x in completedItems ==> 0 <= x < |Steps|
    {
      var s := EnsureState(existing, !beforeEight, today, now);
      if existing.Some? {
        SanitizeSpec(existing.value.completedItems);
      }
      date, completed, completedAt, collapsed, completedItems :=
        s.date, s.completed, s.completedAt, s.collapsed, s.completedItems;
    }

    /** setCollapsed. */
    method SetCollapsed(c: bool)
      modifies this`collapsed
      ensures collapsed == c
    {
      collapsed := c;
    }

    /** setCompletedState: completing stamps the time and collapses; un-completing clears the stamp. */
    method SetCompletedState(c: bool, now: string)
      modifies this
      ensures State() == if c then old(State()).(completed := true, completedAt := Some(now), collapsed := true)
                         else old(State()).(completed := false, completedAt := None)
    {
      completed := c;
      if c {
        completedAt := Some(now);
        SetCollapsed(true);
      } else {
        completedAt := None;
      }
    }

    /**
     * handleCheckboxToggle: the index is added or removed; with every step
     * ticked the checklist completes, otherwise it is marked not complete
     * and its stamp and collapsed flag are left as they were.
     */
    method HandleCheckboxToggle(index: int, checked: bool, now: string)
      modifies this
      ensures completedItems == Toggled(old(completedItems), index, checked)
      ensures completed <==> |completedItems| == |Steps|
      ensures completed ==> completedAt == Some(now) && collapsed
      ensures !completed ==> completedAt == old(completedAt) && collapsed == old(collapsed)
      ensures date == old(date)
    {
      var items := if checked then Dedup(completedItems + [index]) else Dedup(RemoveAll(completedItems, index));
      completedItems := SortAsc(items);
      var allComplete := |completedItems| == |Steps|;
      if allComplete {
        SetCompletedState(true, now);
      } else {
        completed := false;
      }
    }

    /** The collapse button: ignored once complete, otherwise it flips `collapsed`. */
    method HandleToggleClick()
      modifies this`collapsed
      ensures collapsed == if completed then old(collapsed) else !old(collapsed)
    {
      if completed {
        return;
      }
      SetCollapsed(!collapsed);
    }
  }

  /** The state the checkbox handler produces, as a value. */
  function AfterToggle(s: LaunchState, index: int, checked: bool, now: string): LaunchState
  {
    var items := Toggled(s.completedItems, index, checked);
    if |items| == |Steps| then s.(completedItems := items, completed := true, completedAt := Some(now), collapsed := true)
    else s.(completedItems := items, completed := false)
  }

  /**
   * After any toggle the checklist is complete exactly when all five steps
   * are ticked, and the ticked list stays a strictly ascending list of step
   * indexes when the toggled index names a step.
   */
  lemma AfterToggleSpec(s: LaunchState, index: int, checked: bool, now: string)
    requires forall x :: x in s.completedItems ==> 0 <= x < |Steps|
    requires 0 <= index < |Steps|
    ensures AfterToggle(s, index, checked, now).completed <==> |AfterToggle(s, index, checked, now).completedItems| == |Steps|
    ensures StrictlyAscending(AfterToggle(s, index, checked, now).completedItems)
    ensures forall x :: x in AfterToggle(s, index, checked, now).completedItems ==> 0 <= x < |Steps|
  {
    ToggledSpec(s.completedItems, index, checked);
  }

  /**
   * Unticking the step that completed the checklist leaves `completed`
   * false with the completion stamp still set: only setCompletedState(false)
   * clears the stamp, and the checkbox handler never calls it.
   */
  lemma UntickKeepsStamp(s: LaunchState, index: int, now1: string, now2: string)
    requires forall x :: x in s.completedItems ==> 0 <= x < |Steps|
    requires 0 <= index < |Steps|
    requires AfterToggle(s, index, true, now1).completed
    ensures var back := AfterToggle(AfterToggle(s, index, true, now1), index, false, now2);
      !back.completed && back.completedAt == Some(now1)
  {
    var full := AfterToggle(s, index, true, now1);
    ToggledSpec(s.completedItems, index, true);
    var back := Toggled(full.completedItems, index, false);
    ToggledSpec(full.completedItems, index, false);
    AscendingMissing(back, |Steps|, index);
  }
}
