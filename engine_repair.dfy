/**
 * The auto-slide repair (slideSegment, autoSlide). A segment's blocks, in
 * order of their `order` numbers, are pushed forward so that none starts
 * before the previous one ends; then, while the last one runs past the
 * segment's end, it is either cut back to end there (when at least 10
 * minutes remain) or the lowest-yield block that is not a quick win is
 * demoted to a zero-minute carryover log.
 *
 * In the engine the sorted `entries` array shares its objects with `blocks`,
 * so moving an entry moves the block. Here each entry carries the position
 * of its block in `blocks`, and the slid entries are written back by
 * position once the repair is done; removed blocks leave their position and
 * their carryover logs are appended in the order of removal, as the
 * engine's splice-and-push gives.
 */
module EngineRepair {
  import opened Common
  import opened EngineTypes
  import StableSort

  // ---------------------------------------------------------------- findLowestYield

  /** A block that may be demoted: of the segment, neither a quick win nor a carryover log. */
  predicate Demotable(b: Block, seg: string)
  {
    b.segment == seg && b.kind != KindQuickWin && b.kind != KindCarryover
  }

  /** The position of the first demotable block of least yield, after visiting the blocks in order. */
  function LowestYield(bs: seq<Block>, seg: string): (r: Option<nat>)
    ensures r.Some? ==> r.value < |bs| && Demotable(bs[r.value], seg)
    decreases |bs|
  {
    if bs == [] then None
    else
      var n := |bs| - 1;
      var prev := LowestYield(bs[..n], seg);
      if !Demotable(bs[n], seg) then prev
      else if prev.None? || bs[n].yieldScore < bs[prev.value].yieldScore then Some(n)
      else prev
  }

  /**
   * findLowestYield finds a block exactly when one is demotable; it has the
   * least yield of all demotable blocks, and every demotable block before it
   * has a strictly greater yield (the earliest wins a tie).
   */
  lemma {:induction false} LowestYieldSpec(bs: seq<Block>, seg: string)
    ensures LowestYield(bs, seg).None? <==> forall j :: 0 <= j < |bs| ==> !Demotable(bs[j], seg)
    ensures LowestYield(bs, seg).Some? ==>
      forall j :: 0 <= j < |bs| && Demotable(bs[j], seg) ==> bs[LowestYield(bs, seg).value].yieldScore <= bs[j].yieldScore
    ensures LowestYield(bs, seg).Some? ==>
      forall j :: 0 <= j < LowestYield(bs, seg).value && Demotable(bs[j], seg) ==>
        bs[LowestYield(bs, seg).value].yieldScore < bs[j].yieldScore
    decreases |bs|
  {
    if bs != [] {
      var n := |bs| - 1;
      var p := bs[..n];
      LowestYieldSpec(p, seg);
      assert forall j :: 0 <= j < n ==> p[j] == bs[j];
    }
  }

  /** findLowestYield: one pass, replacing the candidate only on a strictly smaller yield. */
  method FindLowestYield(blocks: seq<Block>, seg: string) returns (lowest: Option<nat>)
    ensures lowest == LowestYield(blocks, seg)
  {
    lowest := None;
    var i := 0;
    while i < |blocks|
      invariant 0 <= i <= |blocks|
      invariant lowest == LowestYield(blocks[..i], seg)
    {
      assert blocks[..i + 1][..i] == blocks[..i];
      var b := blocks[i];
      if Demotable(b, seg) {
        if lowest.None? || b.yieldScore < blocks[lowest.value].yieldScore {
          lowest := Some(i);
        }
      }
      i := i + 1;
    }
    assert blocks[..i] == blocks;
  }

  // ---------------------------------------------------------------- applyCarryover

  /** applyCarryover: a zero-minute log of a demoted block, at the demoted block's end. */
  function CarryoverOf(title: string, yieldScore: int, source: string, at: int, seg: string): Block
  {
    Block("Carryover — " + title, 0, KindCarryover, seg, yieldScore, ["carryover"], source, at, at, 0)
  }

  // ---------------------------------------------------------------- entries

  /** A block of the segment, tagged with its position in the block sequence. */
  datatype Entry = Entry(pos: nat, b: Block)

  function Blocks(es: seq<Entry>): (r: seq<Block>)
    ensures |r| == |es| && forall k :: 0 <= k < |es| ==> r[k] == es[k].b
  {
    seq(|es|, k requires 0 <= k < |es| => es[k].b)
  }

  /** The segment's sliding blocks (not carryover logs), tagged, in sequence order. */
  function Tagged(blocks: seq<Block>, seg: string): (r: seq<Entry>)
    ensures forall e :: e in r ==> e.pos < |blocks| && blocks[e.pos] == e.b && IsEntry(e.b, seg)
    decreases |blocks|
  {
    if blocks == [] then []
    else
      var n := |blocks| - 1;
      Tagged(blocks[..n], seg) + (if IsEntry(blocks[n], seg) then [Entry(n, blocks[n])] else [])
  }

  /** The sort key: ascending `order`, as a descending key. */
  function OrderKey(e: Entry): int
  {
    -e.b.order
  }

  /** `.sort((a, b) => a.order - b.order)`: a stable sort by order. */
  function SortedEntries(blocks: seq<Block>, seg: string): seq<Entry>
  {
    StableSort.SortDesc(Tagged(blocks, seg), OrderKey)
  }

  /** Entries in non-decreasing order of `order`. */
  predicate ByOrder(es: seq<Entry>)
  {
    forall i, j :: 0 <= i < j < |es| ==> es[i].b.order <= es[j].b.order
  }

  /** Every entry is a sliding block of the segment. */
  predicate OfSegment(es: seq<Entry>, seg: string)
  {
    forall k :: 0 <= k < |es| ==> IsEntry(es[k].b, seg)
  }

  lemma SortedEntriesShape(blocks: seq<Block>, seg: string)
    ensures ByOrder(SortedEntries(blocks, seg)) && OfSegment(SortedEntries(blocks, seg), seg)
    ensures multiset(SortedEntries(blocks, seg)) == multiset(Tagged(blocks, seg))
  {
    var t := Tagged(blocks, seg);
    var s := SortedEntries(blocks, seg);
    StableSort.SortDescCorrect(t, OrderKey);
    forall i, j | 0 <= i < j < |s| ensures s[i].b.order <= s[j].b.order {
      assert OrderKey(s[i]) >= OrderKey(s[j]);
    }
    forall k | 0 <= k < |s| ensures IsEntry(s[k].b, seg) {
      assert s[k] in multiset(t);
    }
  }

  // ---------------------------------------------------------------- phase one: push forward

  /** An entry starts no earlier than the cursor; a negative length becomes zero. */
  function Place(b: Block, cursor: int): (p: Block)
    ensures p == b.(startMin := p.startMin, endMin := p.endMin, minutes := p.minutes)
    ensures p.startMin == Max(b.startMin, cursor) && p.minutes == Max(b.minutes, 0)
    ensures p.endMin == p.startMin + p.minutes
  {
    var s := Max(b.startMin, cursor);
    if s + b.minutes < s then b.(startMin := s, endMin := s, minutes := 0)
    else b.(startMin := s, endMin := s + b.minutes)
  }

  /** The first for-loop of slideSegment: each entry placed at the end of the one before. */
  function PlaceAll(es: seq<Entry>, cursor: int): (r: seq<Entry>)
    ensures |r| == |es|
    ensures forall k :: 0 <= k < |es| ==>
      r[k].pos == es[k].pos &&
      r[k].b == es[k].b.(startMin := r[k].b.startMin, endMin := r[k].b.endMin, minutes := r[k].b.minutes)
    decreases |es|
  {
    if es == [] then []
    else
      var p := Place(es[0].b, cursor);
      [Entry(es[0].pos, p)] + PlaceAll(es[1..], p.endMin)
  }

  /**
   * Laid out in sequence from `from`: each entry ends at its start plus its
   * (non-negative) minutes, and none starts before `from` or before the
   * previous one ends.
   */
  predicate Chained(es: seq<Entry>, from: int)
  {
    (forall k :: 0 <= k < |es| ==> es[k].b.minutes >= 0 && es[k].b.endMin == es[k].b.startMin + es[k].b.minutes) &&
    (|es| > 0 ==> from <= es[0].b.startMin) &&
    (forall k :: 0 < k < |es| ==> es[k - 1].b.endMin <= es[k].b.startMin)
  }

  lemma {:induction false} PlaceAllChained(es: seq<Entry>, cursor: int)
    ensures Chained(PlaceAll(es, cursor), cursor)
    decreases |es|
  {
    if es != [] {
      var p := Place(es[0].b, cursor);
      PlaceAllChained(es[1..], p.endMin);
      var r := PlaceAll(es, cursor);
      var rest := PlaceAll(es[1..], p.endMin);
      assert r == [Entry(es[0].pos, p)] + rest;
      forall k | 0 < k < |r| ensures r[k - 1].b.endMin <= r[k].b.startMin {
        assert r[k] == rest[k - 1];
        if k > 1 {
          assert r[k - 1] == rest[k - 2];
        }
      }
    }
  }

  /** In a chained sequence every entry ends before any later one starts. */
  lemma {:induction false} ChainedOrdered(es: seq<Entry>, from: int, i: nat, j: nat)
    requires Chained(es, from) && i < j < |es|
    ensures es[i].b.endMin <= es[j].b.startMin
    decreases j - i
  {
    if i + 1 < j {
      ChainedOrdered(es, from, i + 1, j);
    }
  }

  /** Chained entries do not overlap, pairwise. */
  lemma ChainedApart(es: seq<Entry>, from: int)
    requires Chained(es, from)
    ensures NonOverlapping(Blocks(es))
  {
    var bs := Blocks(es);
    forall i, j | 0 <= i < j < |bs| ensures Apart(bs[i], bs[j]) {
      ChainedOrdered(es, from, i, j);
    }
  }

  // ---------------------------------------------------------------- phase two: overflow repair

  const MinShortened := 10

  /** The last entry cut back to end at the segment's end, tagged "shortened". */
  function Shorten(b: Block, end: int): Block
  {
    b.(minutes := b.minutes - (b.endMin - end), endMin := end, meta := b.meta + ["shortened"])
  }

  function RemoveAt<T>(s: seq<T>, i: nat): (r: seq<T>)
    requires i < |s|
    ensures |r| == |s| - 1
  {
    s[..i] + s[i + 1..]
  }

  /** What the repair leaves: the remaining entries, and the removed ones in order of removal. */
  datatype Repaired = Repaired(entries: seq<Entry>, removed: seq<Entry>)

  /** The entries still overrun the segment's end. */
  predicate Overruns(es: seq<Entry>, end: int)
  {
    |es| > 0 && es[|es| - 1].b.endMin > end
  }

  /** The while-loop of slideSegment. */
  function Repair(es: seq<Entry>, seg: string, end: int): (r: Repaired)
    decreases |es|
  {
    if !Overruns(es, end) then Repaired(es, [])
    else
      var n := |es| - 1;
      var last := es[n];
      var overflow := last.b.endMin - end;
      if last.b.minutes - overflow >= MinShortened then
        Repaired(es[n := Entry(last.pos, Shorten(last.b, end))], [])
      else
        var low := LowestYield(Blocks(es), seg);
        if low.None? then Repaired(es, [])
        else
          var rest := Repair(RemoveAt(es, low.value), seg, end);
          Repaired(rest.entries, [es[low.value]] + rest.removed)
  }

  lemma RemoveChained(es: seq<Entry>, from: int, i: nat)
    requires Chained(es, from) && i < |es|
    ensures Chained(RemoveAt(es, i), from)
  {
    var r := RemoveAt(es, i);
    forall k | 0 < k < |r| ensures r[k - 1].b.endMin <= r[k].b.startMin {
      if k < i {
        assert r[k - 1] == es[k - 1] && r[k] == es[k];
      } else if k == i {
        assert r[k - 1] == es[k - 1] && r[k] == es[k + 1];
        ChainedOrdered(es, from, k - 1, k + 1);
      } else {
        assert r[k - 1] == es[k] && r[k] == es[k + 1];
      }
    }
    if i == 0 && |r| > 0 {
      assert r[0] == es[1];
      ChainedOrdered(es, from, 0, 1);
    }
    forall k | 0 <= k < |r| ensures r[k].b.minutes >= 0 && r[k].b.endMin == r[k].b.startMin + r[k].b.minutes {
      if k < i { assert r[k] == es[k]; } else { assert r[k] == es[k + 1]; }
    }
  }

  lemma RemoveByOrder(es: seq<Entry>, i: nat)
    requires ByOrder(es) && i < |es|
    ensures ByOrder(RemoveAt(es, i))
  {
    var r := RemoveAt(es, i);
    forall a, b | 0 <= a < b < |r| ensures r[a].b.order <= r[b].b.order {
      var a' := if a < i then a else a + 1;
      var b' := if b < i then b else b + 1;
      assert r[a] == es[a'] && r[b] == es[b'];
    }
  }

  lemma RemoveOfSegment(es: seq<Entry>, seg: string, i: nat)
    requires OfSegment(es, seg) && i < |es|
    ensures OfSegment(RemoveAt(es, i), seg)
  {
    var r := RemoveAt(es, i);
    forall k | 0 <= k < |r| ensures IsEntry(r[k].b, seg) {
      if k < i { assert r[k] == es[k]; } else { assert r[k] == es[k + 1]; }
    }
  }

  /**
   * The repair keeps the entries laid out in sequence and in order of
   * `order`, and it leaves them within the segment's end unless every entry
   * left is a quick win (nothing can be demoted).
   */
  lemma {:induction false} RepairChained(es: seq<Entry>, seg: string, end: int, from: int)
    requires Chained(es, from) && ByOrder(es) && OfSegment(es, seg)
    ensures var r := Repair(es, seg, end);
      Chained(r.entries, from) && ByOrder(r.entries) && OfSegment(r.entries, seg) &&
      (!Overruns(r.entries, end) || forall k :: 0 <= k < |r.entries| ==> r.entries[k].b.kind == KindQuickWin)
    decreases |es|
  {
    if Overruns(es, end) {
      var n := |es| - 1;
      var last := es[n];
      var overflow := last.b.endMin - end;
      if last.b.minutes - overflow >= MinShortened {
        var r := es[n := Entry(last.pos, Shorten(last.b, end))];
        if n > 0 {
          assert r[n - 1] == es[n - 1];
        }
        assert ByOrder(r) by {
          forall a, b | 0 <= a < b < |r| ensures r[a].b.order <= r[b].b.order {
            assert r[a].b.order == es[a].b.order && r[b].b.order == es[b].b.order;
          }
        }
      } else {
        var low := LowestYield(Blocks(es), seg);
        if low.Some? {
          RemoveChained(es, from, low.value);
          RemoveByOrder(es, low.value);
          RemoveOfSegment(es, seg, low.value);
          RepairChained(RemoveAt(es, low.value), seg, end, from);
        } else {
          LowestYieldSpec(Blocks(es), seg);
          forall k | 0 <= k < |es| ensures es[k].b.kind == KindQuickWin {
            assert !Demotable(Blocks(es)[k], seg);
          }
        }
      }
    }
  }

  lemma RemoveMembers(es: seq<Entry>, i: nat)
    requires i < |es|
    ensures forall e :: e in RemoveAt(es, i) ==> e in es
  {
    var rem := RemoveAt(es, i);
    forall e | e in rem ensures e in es {
      var k :| 0 <= k < |rem| && rem[k] == e;
      if k < i { assert e == es[k]; } else { assert e == es[k + 1]; }
    }
  }

  /**
   * Each entry the repair removes was one of its entries and demotable, and
   * the kept and removed entries together are as many as it started with.
   */
  lemma {:induction false} RepairRemoved(es: seq<Entry>, seg: string, end: int)
    ensures var r := Repair(es, seg, end);
      |r.entries| + |r.removed| == |es| &&
      forall e :: e in r.removed ==> e in es && Demotable(e.b, seg)
    decreases |es|
  {
    if Overruns(es, end) {
      var n := |es| - 1;
      var last := es[n];
      if last.b.minutes - (last.b.endMin - end) < MinShortened {
        var low := LowestYield(Blocks(es), seg);
        if low.Some? {
          var i := low.value;
          RepairRemoved(RemoveAt(es, i), seg, end);
          RemoveMembers(es, i);
          assert Demotable(Blocks(es)[i], seg);
        }
      }
    }
  }

  /** An entry kept as it was, or cut back to end at `end` with at least 10 minutes left. */
  predicate KeptFrom(e: Entry, es: seq<Entry>, end: int)
  {
    e in es ||
    exists o :: o in es && e == Entry(o.pos, Shorten(o.b, end)) && e.b.minutes >= MinShortened && e.b.endMin == end
  }

  /** Every entry the repair keeps is one it started with, possibly cut back to the segment's end. */
  lemma {:induction false} RepairKept(es: seq<Entry>, seg: string, end: int)
    ensures forall e :: e in Repair(es, seg, end).entries ==> KeptFrom(e, es, end)
    decreases |es|
  {
    if Overruns(es, end) {
      var n := |es| - 1;
      var last := es[n];
      if last.b.minutes - (last.b.endMin - end) >= MinShortened {
        var r := es[n := Entry(last.pos, Shorten(last.b, end))];
        assert last in es;
        forall e | e in r ensures KeptFrom(e, es, end) {
          var k :| 0 <= k < |r| && r[k] == e;
          if k < n {
            assert e == es[k];
          }
        }
      } else {
        var low := LowestYield(Blocks(es), seg);
        if low.Some? {
          var rem := RemoveAt(es, low.value);
          RepairKept(rem, seg, end);
          RemoveMembers(es, low.value);
          forall e | e in Repair(rem, seg, end).entries ensures KeptFrom(e, es, end) {
            assert KeptFrom(e, rem, end);
          }
        }
      }
    }
  }

  // ---------------------------------------------------------------- write-back

  /** Some removed entry came from position `p`. */
  predicate RemovedFrom(removed: seq<Entry>, p: nat)
  {
    exists e :: e in removed && e.pos == p
  }

  /** The slid block for position `p`, if an entry came from there. */
  function EntryAt(es: seq<Entry>, p: nat): (r: Option<Block>)
    ensures r.Some? ==> exists e :: e in es && e.pos == p && e.b == r.value
    ensures r.None? ==> forall e :: e in es ==> e.pos != p
    decreases |es|
  {
    if es == [] then None
    else if es[0].pos == p then Some(es[0].b)
    else EntryAt(es[1..], p)
  }

  /** What the block at position `p` becomes: dropped when removed, its slid entry, or itself. */
  function Settled(blocks: seq<Block>, es: seq<Entry>, removed: seq<Entry>, p: nat): seq<Block>
    requires p < |blocks|
  {
    if RemovedFrom(removed, p) then []
    else if EntryAt(es, p).Some? then [EntryAt(es, p).value]
    else [blocks[p]]
  }

  /** The block sequence after the entries' changes are written back by position. */
  function WriteBack(blocks: seq<Block>, es: seq<Entry>, removed: seq<Entry>): seq<Block>
    decreases |blocks|
  {
    if blocks == [] then []
    else
      var n := |blocks| - 1;
      WriteBack(blocks[..n], es, removed) + Settled(blocks, es, removed, n)
  }

  /**
   * The entries are sliding blocks of the segment, and every entry or
   * removed entry that points into `blocks` points at one of them.
   */
  predicate FromEntries(blocks: seq<Block>, es: seq<Entry>, removed: seq<Entry>, seg: string)
  {
    (forall e :: e in es ==> IsEntry(e.b, seg)) &&
    (forall e :: e in es && e.pos < |blocks| ==> IsEntry(blocks[e.pos], seg)) &&
    (forall e :: e in removed && e.pos < |blocks| ==> IsEntry(blocks[e.pos], seg))
  }

  /** Writing back leaves every block that does not slide where it was, in order. */
  lemma {:induction false} WriteBackNonEntries(blocks: seq<Block>, es: seq<Entry>, removed: seq<Entry>, seg: string)
    requires FromEntries(blocks, es, removed, seg)
    ensures NonEntries(WriteBack(blocks, es, removed), seg) == NonEntries(blocks, seg)
    decreases |blocks|
  {
    if blocks != [] {
      var n := |blocks| - 1;
      var p := blocks[..n];
      var piece := Settled(blocks, es, removed, n);
      WriteBackNonEntries(p, es, removed, seg);
      NonEntriesAppend(WriteBack(p, es, removed), piece, seg);
      assert blocks == p + [blocks[n]];
      NonEntriesAppend(p, [blocks[n]], seg);
      if IsEntry(blocks[n], seg) {
        assert NonEntries(piece, seg) == [];
      } else {
        assert piece == [blocks[n]];
      }
    }
  }

  // ---------------------------------------------------------------- slideSegment

  /**
   * One carryover log per removed entry, in order of removal: a zero-minute
   * block of the segment, titled after the removed block, that sits at the
   * removed block's end and keeps its yield and source.
   */
  function Carryovers(removed: seq<Entry>, seg: string): (r: seq<Block>)
    ensures |r| == |removed|
    ensures forall k :: 0 <= k < |r| ==>
      r[k].kind == KindCarryover && r[k].minutes == 0 && r[k].segment == seg &&
      r[k].title == "Carryover — " + removed[k].b.title &&
      r[k].startMin == r[k].endMin == removed[k].b.endMin &&
      r[k].yieldScore == removed[k].b.yieldScore && r[k].source == removed[k].b.source
  {
    seq(|removed|, k requires 0 <= k < |removed| =>
      CarryoverOf(removed[k].b.title, removed[k].b.yieldScore, removed[k].b.source, removed[k].b.endMin, seg))
  }

  /** The blocks after the slide, and the engine's `entries` array and removed blocks at its end. */
  datatype Slid = Slid(blocks: seq<Block>, entries: seq<Entry>, removed: seq<Entry>)

  /** slideSegment for a segment whose span is `sp`. */
  function SlideIn(blocks: seq<Block>, seg: string, sp: Span): Slid
  {
    var r := Repair(PlaceAll(SortedEntries(blocks, seg), sp.start), seg, sp.end);
    Slid(WriteBack(blocks, r.entries, r.removed) + Carryovers(r.removed, seg), r.entries, r.removed)
  }

  /** slideSegment: nothing happens to a segment without a span. */
  function Slide(blocks: seq<Block>, seg: string, meta: seq<Span>): Slid
  {
    match Lookup(meta, seg)
    case None => Slid(blocks, [], [])
    case Some(sp) => SlideIn(blocks, seg, sp)
  }

  lemma PlaceAllStep(es: seq<Entry>, i: nat, cursor: int)
    requires i < |es|
    ensures PlaceAll(es[i..], cursor) ==
      [Entry(es[i].pos, Place(es[i].b, cursor))] + PlaceAll(es[i + 1..], Place(es[i].b, cursor).endMin)
  {
    assert es[i..][1..] == es[i + 1..];
  }

  /** The first loop of slideSegment, placing the entries one by one. */
  method PushForward(es: seq<Entry>, start: int) returns (entries: seq<Entry>)
    ensures entries == PlaceAll(es, start)
  {
    entries := [];
    var cursor := start;
    var i := 0;
    while i < |es|
      invariant 0 <= i <= |es|
      invariant PlaceAll(es, start) == entries + PlaceAll(es[i..], cursor)
    {
      var e := es[i];
      var p := Place(e.b, cursor);
      PlaceAllStep(es, i, cursor);
      assert entries + ([Entry(e.pos, p)] + PlaceAll(es[i + 1..], p.endMin))
          == (entries + [Entry(e.pos, p)]) + PlaceAll(es[i + 1..], p.endMin);
      entries := entries + [Entry(e.pos, p)];
      cursor := p.endMin;
      i := i + 1;
    }
    assert PlaceAll(es[i..], cursor) == [];
    assert entries + [] == entries;
  }

  /** The while-loop of slideSegment: shorten the last entry or demote the lowest-yield one. */
  method RepairOverflow(es: seq<Entry>, seg: string, end: int) returns (entries: seq<Entry>, removed: seq<Entry>)
    ensures Repaired(entries, removed) == Repair(es, seg, end)
  {
    entries := es;
    removed := [];
    while Overruns(entries, end)
      invariant Repair(es, seg, end) ==
        Repaired(Repair(entries, seg, end).entries, removed + Repair(entries, seg, end).removed)
      decreases |entries|, if Overruns(entries, end) then 1 else 0
    {
      var n := |entries| - 1;
      var last := entries[n];
      var overflow := last.b.endMin - end;
      if last.b.minutes - overflow >= MinShortened {
        entries := entries[n := Entry(last.pos, Shorten(last.b, end))];
        assert !Overruns(entries, end);
      } else {
        var low := FindLowestYield(Blocks(entries), seg);
        if low.None? {
          break;
        }
        ghost var rest := Repair(RemoveAt(entries, low.value), seg, end);
        assert removed + ([entries[low.value]] + rest.removed) == (removed + [entries[low.value]]) + rest.removed;
        removed := removed + [entries[low.value]];
        entries := RemoveAt(entries, low.value);
      }
    }
    assert removed + [] == removed;
  }

  /** slideSegment: push forward, then repair the overflow, then write the entries back. */
  method SlideSegment(blocks: seq<Block>, seg: string, meta: seq<Span>) returns (blocks': seq<Block>)
    ensures blocks' == Slide(blocks, seg, meta).blocks
  {
    var span := Lookup(meta, seg);
    if span.None? {
      return blocks;
    }
    var entries := PushForward(SortedEntries(blocks, seg), span.value.start);
    var removed;
    entries, removed := RepairOverflow(entries, seg, span.value.end);
    blocks' := WriteBack(blocks, entries, removed) + Carryovers(removed, seg);
  }

  // ---------------------------------------------------------------- properties of a slide

  /** The entries are sliding blocks of the segment whose positions hold sliding blocks. */
  predicate Points(blocks: seq<Block>, es: seq<Entry>, seg: string)
  {
    forall e :: e in es ==> IsEntry(e.b, seg) && e.pos < |blocks| && IsEntry(blocks[e.pos], seg)
  }

  lemma PlacedPoints(blocks: seq<Block>, seg: string, start: int)
    ensures Points(blocks, PlaceAll(SortedEntries(blocks, seg), start), seg)
  {
    var t := Tagged(blocks, seg);
    var s := SortedEntries(blocks, seg);
    var p := PlaceAll(s, start);
    SortedEntriesShape(blocks, seg);
    forall e | e in p ensures IsEntry(e.b, seg) && e.pos < |blocks| && IsEntry(blocks[e.pos], seg) {
      var k :| 0 <= k < |p| && p[k] == e;
      assert s[k] in multiset(t);
    }
  }

  lemma RepairPoints(blocks: seq<Block>, es: seq<Entry>, seg: string, end: int)
    requires Points(blocks, es, seg)
    ensures Points(blocks, Repair(es, seg, end).entries, seg) && Points(blocks, Repair(es, seg, end).removed, seg)
  {
    RepairRemoved(es, seg, end);
    RepairKept(es, seg, end);
    var r := Repair(es, seg, end);
    forall e | e in r.entries ensures IsEntry(e.b, seg) && e.pos < |blocks| && IsEntry(blocks[e.pos], seg) {
      assert KeptFrom(e, es, end);
    }
  }

  /**
   * After slideSegment the segment's entries, in order of `order`, are laid
   * out one after another from the segment's start, so no two overlap; and
   * they end by the segment's end unless only quick wins are left.
   */
  lemma SlideLaidOut(blocks: seq<Block>, seg: string, sp: Span)
    ensures var s := SlideIn(blocks, seg, sp);
      Chained(s.entries, sp.start) && NonOverlapping(Blocks(s.entries)) && ByOrder(s.entries) &&
      (!Overruns(s.entries, sp.end) || forall k :: 0 <= k < |s.entries| ==> s.entries[k].b.kind == KindQuickWin)
  {
    var sorted := SortedEntries(blocks, seg);
    var placed := PlaceAll(sorted, sp.start);
    SortedEntriesShape(blocks, seg);
    PlaceAllChained(sorted, sp.start);
    assert ByOrder(placed) by {
      forall a, b | 0 <= a < b < |placed| ensures placed[a].b.order <= placed[b].b.order {
        assert placed[a].b.order == sorted[a].b.order && placed[b].b.order == sorted[b].b.order;
      }
    }
    assert OfSegment(placed, seg) by {
      forall k | 0 <= k < |placed| ensures IsEntry(placed[k].b, seg) {
        assert IsEntry(sorted[k].b, seg);
      }
    }
    RepairChained(placed, seg, sp.end, sp.start);
    ChainedApart(SlideIn(blocks, seg, sp).entries, sp.start);
  }

  lemma {:induction false} NonEntriesOfCarryovers(bs: seq<Block>, seg: string)
    requires forall b :: b in bs ==> b.kind == KindCarryover
    ensures NonEntries(bs, seg) == bs
    decreases |bs|
  {
    if bs != [] {
      NonEntriesOfCarryovers(bs[1..], seg);
    }
  }

  /**
   * slideSegment leaves every block that does not slide in the segment
   * where it was, in order, and appends one carryover log per removed block;
   * each removed block was demotable.
   */
  lemma SlideKeepsRest(blocks: seq<Block>, seg: string, sp: Span)
    ensures var s := SlideIn(blocks, seg, sp);
      NonEntries(s.blocks, seg) == NonEntries(blocks, seg) + Carryovers(s.removed, seg) &&
      forall e :: e in s.removed ==> Demotable(e.b, seg)
  {
    var placed := PlaceAll(SortedEntries(blocks, seg), sp.start);
    var r := Repair(placed, seg, sp.end);
    PlacedPoints(blocks, seg, sp.start);
    RepairPoints(blocks, placed, seg, sp.end);
    RepairRemoved(placed, seg, sp.end);
    WriteBackNonEntries(blocks, r.entries, r.removed, seg);
    var cs := Carryovers(r.removed, seg);
    NonEntriesAppend(WriteBack(blocks, r.entries, r.removed), cs, seg);
    NonEntriesOfCarryovers(cs, seg);
  }

  // ---------------------------------------------------------------- the slid segment in the block list

  /** The positions the entries came from, in order. */
  function Positions(es: seq<Entry>): (r: seq<nat>)
    ensures |r| == |es| && forall k :: 0 <= k < |es| ==> r[k] == es[k].pos
  {
    seq(|es|, k requires 0 <= k < |es| => es[k].pos)
  }

  /** The positions the entries came from, counted. */
  ghost function PosBag(es: seq<Entry>): multiset<nat>
  {
    multiset(Positions(es))
  }

  lemma PosBagAppend(a: seq<Entry>, b: seq<Entry>)
    ensures PosBag(a + b) == PosBag(a) + PosBag(b)
  {
    assert Positions(a + b) == Positions(a) + Positions(b);
  }

  lemma PosBagCons(e: Entry, es: seq<Entry>)
    ensures PosBag([e] + es) == multiset{e.pos} + PosBag(es)
  {
    assert Positions([e] + es) == [e.pos] + Positions(es);
  }

  /** An entry came from position `p` exactly when `p` is among the positions. */
  lemma {:induction false} EntryAtPosBag(es: seq<Entry>, p: nat)
    ensures EntryAt(es, p).Some? <==> p in PosBag(es)
    decreases |es|
  {
    if es != [] {
      EntryAtPosBag(es[1..], p);
      assert es == [es[0]] + es[1..];
      PosBagCons(es[0], es[1..]);
    }
  }

  /** Taking one entry out of the sequence takes its position out of the count. */
  lemma PosBagTakeOut(b: seq<Entry>, k: nat)
    requires k < |b|
    ensures multiset(b[..k] + b[k + 1..]) == multiset(b) - multiset{b[k]}
    ensures PosBag(b) == multiset{b[k].pos} + PosBag(b[..k] + b[k + 1..])
  {
    assert b == b[..k] + [b[k]] + b[k + 1..];
    assert multiset(b) == multiset(b[..k]) + multiset{b[k]} + multiset(b[k + 1..]);
    PosBagAppend(b[..k] + [b[k]], b[k + 1..]);
    PosBagAppend(b[..k], [b[k]]);
    PosBagAppend(b[..k], b[k + 1..]);
    PosBagCons(b[k], []);
    assert [b[k]] + [] == [b[k]];
  }

  /** Permuting the entries permutes their positions. */
  lemma {:induction false} PosBagPermutation(a: seq<Entry>, b: seq<Entry>)
    requires multiset(a) == multiset(b)
    ensures PosBag(a) == PosBag(b)
    decreases |a|
  {
    if a == [] {
      assert |b| == |multiset(b)| == 0;
    } else {
      assert a == [a[0]] + a[1..];
      assert multiset(a[1..]) == multiset(a) - multiset{a[0]};
      assert a[0] in multiset(b);
      var k :| 0 <= k < |b| && b[k] == a[0];
      PosBagTakeOut(b, k);
      PosBagPermutation(a[1..], b[..k] + b[k + 1..]);
      PosBagCons(a[0], a[1..]);
    }
  }

  /** Each position of a sliding block of the segment is tagged once, and no other. */
  lemma {:induction false} TaggedPosBag(blocks: seq<Block>, seg: string)
    ensures forall p: nat :: PosBag(Tagged(blocks, seg))[p] == if p < |blocks| && IsEntry(blocks[p], seg) then 1 else 0
    decreases |blocks|
  {
    if blocks == [] {
    } else {
      var n := |blocks| - 1;
      var pre := blocks[..n];
      var piece := if IsEntry(blocks[n], seg) then [Entry(n, blocks[n])] else [];
      var t := Tagged(pre, seg);
      assert Tagged(blocks, seg) == t + piece;
      TaggedPosBag(pre, seg);
      PosBagAppend(t, piece);
      var extra := if IsEntry(blocks[n], seg) then multiset{n} else multiset{};
      assert PosBag(piece) == extra by {
        assert Positions(piece) == if IsEntry(blocks[n], seg) then [n] else [];
      }
      forall p: nat ensures PosBag(Tagged(blocks, seg))[p] == if p < |blocks| && IsEntry(blocks[p], seg) then 1 else 0 {
        assert PosBag(Tagged(blocks, seg))[p] == PosBag(t)[p] + extra[p];
        if p < n {
          assert pre[p] == blocks[p];
        }
      }
    }
  }

  lemma {:induction false} PlaceAllPosBag(es: seq<Entry>, cursor: int)
    ensures PosBag(PlaceAll(es, cursor)) == PosBag(es)
    decreases |es|
  {
    if es != [] {
      var p := Place(es[0].b, cursor);
      PlaceAllPosBag(es[1..], p.endMin);
      PosBagCons(Entry(es[0].pos, p), PlaceAll(es[1..], p.endMin));
      assert es == [es[0]] + es[1..];
      PosBagCons(es[0], es[1..]);
    }
  }

  lemma PosBagUpdate(es: seq<Entry>, n: nat, e: Entry)
    requires n < |es| && e.pos == es[n].pos
    ensures PosBag(es[n := e]) == PosBag(es)
  {
    assert Positions(es[n := e]) == Positions(es);
  }

  lemma PosBagRemoveAt(es: seq<Entry>, i: nat)
    requires i < |es|
    ensures PosBag(RemoveAt(es, i)) + multiset{es[i].pos} == PosBag(es)
  {
    var ps := Positions(es);
    assert Positions(RemoveAt(es, i)) == ps[..i] + ps[i + 1..];
    assert ps == ps[..i] + [ps[i]] + ps[i + 1..];
  }

  /** The repair keeps or removes every entry, once: together they come from the same positions. */
  lemma {:induction false} RepairPosBag(es: seq<Entry>, seg: string, end: int)
    ensures PosBag(Repair(es, seg, end).entries) + PosBag(Repair(es, seg, end).removed) == PosBag(es)
    decreases |es|
  {
    if Overruns(es, end) {
      var n := |es| - 1;
      var last := es[n];
      if last.b.minutes - (last.b.endMin - end) >= MinShortened {
        PosBagUpdate(es, n, Entry(last.pos, Shorten(last.b, end)));
      } else {
        var low := LowestYield(Blocks(es), seg);
        if low.Some? {
          var i := low.value;
          var rem := RemoveAt(es, i);
          RepairPosBag(rem, seg, end);
          PosBagRemoveAt(es, i);
          PosBagCons(es[i], Repair(rem, seg, end).removed);
        }
      }
    }
  }

  /** The blocks of the entries that came from positions below `m`. */
  ghost function BlocksBelow(es: seq<Entry>, m: nat): multiset<Block>
    decreases |es|
  {
    if es == [] then multiset{}
    else (if es[0].pos < m then multiset{es[0].b} else multiset{}) + BlocksBelow(es[1..], m)
  }

  lemma {:induction false} BlocksBelowZero(es: seq<Entry>)
    ensures BlocksBelow(es, 0) == multiset{}
    decreases |es|
  {
    if es != [] {
      BlocksBelowZero(es[1..]);
    }
  }

  /** Raising the bound by one adds the entry from that position, if there is one. */
  lemma {:induction false} BlocksBelowStep(es: seq<Entry>, m: nat)
    requires PosBag(es)[m] <= 1
    ensures BlocksBelow(es, m + 1) ==
      BlocksBelow(es, m) + (if EntryAt(es, m).Some? then multiset{EntryAt(es, m).value} else multiset{})
    decreases |es|
  {
    if es != [] {
      assert es == [es[0]] + es[1..];
      PosBagCons(es[0], es[1..]);
      if es[0].pos == m {
        EntryAtPosBag(es[1..], m);
        BlocksBelowStep(es[1..], m);
      } else {
        BlocksBelowStep(es[1..], m);
      }
    }
  }

  lemma {:induction false} BlocksBelowAll(es: seq<Entry>, m: nat)
    requires forall e :: e in es ==> e.pos < m
    ensures BlocksBelow(es, m) == multiset(Blocks(es))
    decreases |es|
  {
    if es != [] {
      BlocksBelowAll(es[1..], m);
      assert Blocks(es) == [es[0].b] + Blocks(es[1..]);
    }
  }

  /**
   * Writing back the first `m` blocks yields, among the segment's sliding
   * blocks, exactly the entries from those positions: every sliding
   * position was either kept (and holds its entry now) or removed.
   */
  lemma {:induction false} WriteBackEntries(blocks: seq<Block>, es: seq<Entry>, removed: seq<Entry>, seg: string, m: nat)
    requires m <= |blocks|
    requires forall e :: e in es ==> IsEntry(e.b, seg)
    requires forall p: nat :: (PosBag(es) + PosBag(removed))[p] == if p < |blocks| && IsEntry(blocks[p], seg) then 1 else 0
    ensures multiset(Entries(WriteBack(blocks[..m], es, removed), seg)) == BlocksBelow(es, m)
    decreases m
  {
    if m == 0 {
      assert blocks[..0] == [];
      BlocksBelowZero(es);
    } else {
      var k := m - 1;
      WriteBackEntries(blocks, es, removed, seg, k);
      var pre := blocks[..m];
      assert pre[..k] == blocks[..k];
      var piece := Settled(pre, es, removed, k);
      assert WriteBack(pre, es, removed) == WriteBack(blocks[..k], es, removed) + piece;
      EntriesAppend(WriteBack(blocks[..k], es, removed), piece, seg);
      assert (PosBag(es) + PosBag(removed))[k] <= 1;
      BlocksBelowStep(es, k);
      EntryAtPosBag(es, k);
      EntryAtPosBag(removed, k);
      if RemovedFrom(removed, k) {
        assert EntryAt(removed, k).Some?;
      } else if EntryAt(es, k).Some? {
        assert IsEntry(EntryAt(es, k).value, seg);
        assert Entries(piece, seg) == [EntryAt(es, k).value];
      } else {
        assert EntryAt(removed, k).None?;
        assert !IsEntry(blocks[k], seg);
        assert Entries(piece, seg) == [];
      }
    }
  }

  /**
   * After slideSegment the segment's sliding blocks in the returned list
   * are exactly the laid-out entries, so they pairwise do not overlap.
   */
  lemma SlideSegmentLaidOut(blocks: seq<Block>, seg: string, sp: Span)
    ensures var s := SlideIn(blocks, seg, sp);
      multiset(Entries(s.blocks, seg)) == multiset(Blocks(s.entries)) &&
      NonOverlapping(Entries(s.blocks, seg))
  {
    var tagged := Tagged(blocks, seg);
    var sorted := SortedEntries(blocks, seg);
    var placed := PlaceAll(sorted, sp.start);
    var r := Repair(placed, seg, sp.end);
    TaggedPosBag(blocks, seg);
    SortedEntriesShape(blocks, seg);
    PosBagPermutation(sorted, tagged);
    PlaceAllPosBag(sorted, sp.start);
    RepairPosBag(placed, seg, sp.end);
    PlacedPoints(blocks, seg, sp.start);
    RepairPoints(blocks, placed, seg, sp.end);
    WriteBackEntries(blocks, r.entries, r.removed, seg, |blocks|);
    assert blocks[..|blocks|] == blocks;
    BlocksBelowAll(r.entries, |blocks|);
    var wb := WriteBack(blocks, r.entries, r.removed);
    var cs := Carryovers(r.removed, seg);
    EntriesAppend(wb, cs, seg);
    EntriesOfCarryovers(cs, seg);
    assert Entries(wb + cs, seg) == Entries(wb, seg);
    SlideLaidOut(blocks, seg, sp);
    NonOverlappingPermutation(Blocks(r.entries), Entries(wb + cs, seg));
  }

  /** Sliding one segment does not touch the sliding blocks of any other. */
  lemma SlideOtherSegment(blocks: seq<Block>, seg: string, meta: seq<Span>, other: string)
    requires other != seg
    ensures Entries(Slide(blocks, seg, meta).blocks, other) == Entries(blocks, other)
  {
    var sp := Lookup(meta, seg);
    if sp.Some? {
      var s := SlideIn(blocks, seg, sp.value);
      SlideKeepsRest(blocks, seg, sp.value);
      EntriesOfNonEntries(s.blocks, seg, other);
      EntriesOfNonEntries(blocks, seg, other);
      EntriesAppend(NonEntries(blocks, seg), Carryovers(s.removed, seg), seg);
      EntriesAppend(NonEntries(blocks, seg), Carryovers(s.removed, seg), other);
      EntriesOfCarryovers(Carryovers(s.removed, seg), other);
    }
  }

  // ---------------------------------------------------------------- autoSlide

  /** The blocks after sliding the named segments in turn. */
  function SlideAll(blocks: seq<Block>, names: seq<string>, meta: seq<Span>): seq<Block>
    decreases |names|
  {
    if names == [] then blocks
    else Slide(SlideAll(blocks, names[..|names| - 1], meta), names[|names| - 1], meta).blocks
  }

  /** autoSlide: every segment of the span table, in the table's order. */
  method AutoSlide(blocks: seq<Block>, meta: seq<Span>) returns (blocks': seq<Block>)
    ensures blocks' == SlideAll(blocks, SpanNames(meta), meta)
  {
    var names := SpanNames(meta);
    blocks' := blocks;
    var i := 0;
    while i < |meta|
      invariant 0 <= i <= |meta|
      invariant blocks' == SlideAll(blocks, names[..i], meta)
    {
      SlideAllUnfold(blocks, names, meta, i + 1);
      ghost var before := blocks';
      blocks' := SlideSegment(blocks', names[i], meta);
      assert blocks' == Slide(before, names[i], meta).blocks;
      i := i + 1;
    }
    assert names[..i] == names;
  }

  lemma SlideAllUnfold(blocks: seq<Block>, names: seq<string>, meta: seq<Span>, j: nat)
    requires 0 < j <= |names|
    ensures SlideAll(blocks, names[..j], meta) == Slide(SlideAll(blocks, names[..j - 1], meta), names[j - 1], meta).blocks
  {
    assert names[..j][..j - 1] == names[..j - 1];
  }

  /**
   * A segment slid at step k keeps its sliding blocks through every later
   * step when no later step slides the same segment: the segments are
   * repaired independently.
   */
  lemma {:induction false} SlideAllKeeps(blocks: seq<Block>, names: seq<string>, meta: seq<Span>, k: nat, j: nat)
    requires k < j <= |names|
    requires forall i :: k < i < j ==> names[i] != names[k]
    ensures Entries(SlideAll(blocks, names[..j], meta), names[k]) ==
            Entries(SlideAll(blocks, names[..k + 1], meta), names[k])
    decreases j
  {
    if j > k + 1 {
      SlideAllKeeps(blocks, names, meta, k, j - 1);
      SlideAllUnfold(blocks, names, meta, j);
      SlideOtherSegment(SlideAll(blocks, names[..j - 1], meta), names[j - 1], meta, names[k]);
    }
  }

  /**
   * After autoSlide over a span table with distinct names, the sliding
   * blocks of every segment of the table pairwise do not overlap.
   */
  lemma AutoSlideLaidOut(blocks: seq<Block>, meta: seq<Span>, k: nat)
    requires k < |meta| && NoDuplicates(SpanNames(meta))
    ensures NonOverlapping(Entries(SlideAll(blocks, SpanNames(meta), meta), meta[k].name))
  {
    assert meta[k] in meta;
    SlideAllLaidOut(blocks, SpanNames(meta), meta, k);
  }

  /** A segment slid at step k and at no later step stays laid out. */
  lemma SlideAllLaidOut(blocks: seq<Block>, names: seq<string>, meta: seq<Span>, k: nat)
    requires k < |names| && Lookup(meta, names[k]).Some?
    requires forall i :: k < i < |names| ==> names[i] != names[k]
    ensures NonOverlapping(Entries(SlideAll(blocks, names, meta), names[k]))
  {
    SlideStepLaidOut(SlideAll(blocks, names[..k], meta), names[k], meta);
    SlideAllUnfold(blocks, names, meta, k + 1);
    if k + 1 < |names| {
      SlideAllKeeps(blocks, names, meta, k, |names|);
    }
    assert names[..|names|] == names;
  }



  /** A slide of a segment with a span lays out that segment's sliding blocks. */
  lemma SlideStepLaidOut(blocks: seq<Block>, seg: string, meta: seq<Span>)
    requires Lookup(meta, seg).Some?
    ensures NonOverlapping(Entries(Slide(blocks, seg, meta).blocks, seg))
  {
    SlideSegmentLaidOut(blocks, seg, Lookup(meta, seg).value);
  }

}
