/**
 * fillGeneralWindow: an Admin or Focus window is filled front to back from
 * the general FIFO queue, each block a slice of the cluster at the head of
 * the queue, until the quota cap is spent, the queue is empty, or the next
 * slice would be shorter than 5 minutes.
 */
module EngineGeneral {
  import opened Common
  import opened EngineTypes
  import opened EngineQueues

  const MinGeneralSlice := 5

  /** The capacity of a window: floor(duration * multiplier), never more than the duration. */
  function WindowCap(start: int, end: int, multiplier: real): (cap: int)
    ensures cap <= Max(end - start, 0)
    ensures 0.0 <= multiplier ==> 0 <= cap
    ensures multiplier <= 1.0 ==> cap == ((Max(end - start, 0) as real) * multiplier).Floor
  {
    var duration := Max(end - start, 0);
    assert 0.0 <= multiplier ==> 0.0 <= (duration as real) * multiplier;
    assert multiplier <= 1.0 ==> (duration as real) * multiplier <= duration as real;
    Min(((duration as real) * multiplier).Floor, duration)
  }

  /** The most a cluster may be given at once: its slice (45 when zero). */
  function SliceCap(c: Cluster): int
  {
    if c.slice == 0 then 45 else c.slice
  }

  /** The block a slice of a cluster becomes. */
  function SliceBlock(c: Cluster, minutes: int, seg: string, cursor: int, order: int): (b: Block)
    ensures b.minutes == minutes && b.startMin == cursor && b.endMin == cursor + minutes
    ensures b.order == order && b.segment == seg
  {
    Block(c.title, minutes, c.kind, seg, c.yieldScore, c.meta, c.source, cursor, cursor + minutes, order)
  }

  datatype FillResult = FillResult(blocks: seq<Block>, queue: seq<Cluster>)

  /** The length of the next slice: the head's slice, its remaining minutes and the capacity left, whichever is least. */
  function NextSlice(queue: seq<Cluster>, remaining: int): int
    requires queue != []
  {
    Min(Min(SliceCap(queue[0]), queue[0].remaining), remaining)
  }

  /** The loop goes on: capacity is left, the queue is not empty and the next slice is long enough. */
  predicate Proceeds(queue: seq<Cluster>, remaining: int)
  {
    remaining > 0 && queue != [] && NextSlice(queue, remaining) >= MinGeneralSlice
  }

  /** The queue after a slice of its head: the head is dequeued once nothing of it remains. */
  function Advance(queue: seq<Cluster>, slice: int): seq<Cluster>
    requires queue != []
  {
    var left := queue[0].remaining - slice;
    if left <= 0 then queue[1..] else [queue[0].(remaining := left)] + queue[1..]
  }

  /** The blocks a general window receives and the queue it leaves behind. */
  function GeneralFill(queue: seq<Cluster>, remaining: int, cursor: int, seg: string, counter: int): FillResult
    decreases Max(remaining, 0)
  {
    if !Proceeds(queue, remaining) then FillResult([], queue)
    else
      var slice := NextSlice(queue, remaining);
      var rest := GeneralFill(Advance(queue, slice), remaining - slice, cursor + slice, seg, counter + 1);
      FillResult([SliceBlock(queue[0], slice, seg, cursor, counter + 1)] + rest.blocks, rest.queue)
  }

  function QueueTotal(q: seq<Cluster>): int
    decreases |q|
  {
    if q == [] then 0 else q[0].remaining + QueueTotal(q[1..])
  }

  /** Blocks laid end to end from `from`, each ending its own minutes after it starts. */
  predicate Contiguous(bs: seq<Block>, from: int)
  {
    (forall k :: 0 <= k < |bs| ==> bs[k].endMin == bs[k].startMin + bs[k].minutes) &&
    (|bs| > 0 ==> bs[0].startMin == from) &&
    (forall k :: 0 < k < |bs| ==> bs[k].startMin == bs[k - 1].endMin)
  }

  lemma ContiguousCons(b: Block, rest: seq<Block>, from: int)
    requires b.startMin == from && b.endMin == b.startMin + b.minutes
    requires Contiguous(rest, b.endMin)
    ensures Contiguous([b] + rest, from)
  {
    var bs := [b] + rest;
    forall k | 0 < k < |bs| ensures bs[k].startMin == bs[k - 1].endMin {
      assert bs[k] == rest[k - 1];
    }
  }

  /** The block is a slice of the cluster: same labels, no longer than its slice or its remaining minutes. */
  predicate SliceOf(b: Block, c: Cluster)
  {
    b.title == c.title && b.kind == c.kind && b.yieldScore == c.yieldScore &&
    b.meta == c.meta && b.source == c.source &&
    b.minutes <= SliceCap(c) && b.minutes <= c.remaining
  }

  /** One step of the fill, unfolded. */
  lemma GeneralFillStep(queue: seq<Cluster>, remaining: int, cursor: int, seg: string, counter: int)
    requires Proceeds(queue, remaining)
    ensures var slice := NextSlice(queue, remaining);
      var rest := GeneralFill(Advance(queue, slice), remaining - slice, cursor + slice, seg, counter + 1);
      var r := GeneralFill(queue, remaining, cursor, seg, counter);
      r.blocks == [SliceBlock(queue[0], slice, seg, cursor, counter + 1)] + rest.blocks &&
      r.queue == rest.queue &&
      r.blocks[1..] == rest.blocks &&
      MinGeneralSlice <= slice <= remaining
  {
  }

  /** The blocks are laid contiguously from the cursor. */
  lemma {:induction false} GeneralFillContiguous(queue: seq<Cluster>, remaining: int, cursor: int, seg: string, counter: int)
    ensures Contiguous(GeneralFill(queue, remaining, cursor, seg, counter).blocks, cursor)
    decreases Max(remaining, 0)
  {
    if Proceeds(queue, remaining) {
      var slice := NextSlice(queue, remaining);
      GeneralFillStep(queue, remaining, cursor, seg, counter);
      GeneralFillContiguous(Advance(queue, slice), remaining - slice, cursor + slice, seg, counter + 1);
      ContiguousCons(SliceBlock(queue[0], slice, seg, cursor, counter + 1),
        GeneralFill(Advance(queue, slice), remaining - slice, cursor + slice, seg, counter + 1).blocks, cursor);
    }
  }

  /** Each block is at least 5 minutes, and the blocks are numbered counter+1, counter+2, ... */
  lemma {:induction false} GeneralFillBlocks(queue: seq<Cluster>, remaining: int, cursor: int, seg: string, counter: int)
    ensures forall k :: 0 <= k < |GeneralFill(queue, remaining, cursor, seg, counter).blocks| ==>
      var b := GeneralFill(queue, remaining, cursor, seg, counter).blocks[k];
      b.minutes >= MinGeneralSlice && b.order == counter + 1 + k && b.segment == seg
    decreases Max(remaining, 0)
  {
    if Proceeds(queue, remaining) {
      var slice := NextSlice(queue, remaining);
      GeneralFillStep(queue, remaining, cursor, seg, counter);
      GeneralFillBlocks(Advance(queue, slice), remaining - slice, cursor + slice, seg, counter + 1);
      var r := GeneralFill(queue, remaining, cursor, seg, counter);
      var rest := GeneralFill(Advance(queue, slice), remaining - slice, cursor + slice, seg, counter + 1);
      forall k | 0 <= k < |r.blocks|
        ensures r.blocks[k].minutes >= MinGeneralSlice && r.blocks[k].order == counter + 1 + k && r.blocks[k].segment == seg
      {
        if k > 0 {
          assert r.blocks[k] == rest.blocks[k - 1];
        }
      }
    }
  }

  /** Together the blocks use no more than the capacity. */
  lemma {:induction false} GeneralFillWithinCap(queue: seq<Cluster>, remaining: int, cursor: int, seg: string, counter: int)
    ensures TotalMinutes(GeneralFill(queue, remaining, cursor, seg, counter).blocks) <= Max(remaining, 0)
    decreases Max(remaining, 0)
  {
    if Proceeds(queue, remaining) {
      var slice := NextSlice(queue, remaining);
      GeneralFillStep(queue, remaining, cursor, seg, counter);
      GeneralFillWithinCap(Advance(queue, slice), remaining - slice, cursor + slice, seg, counter + 1);
    }
  }

  lemma {:induction false} LastEndsAtTotal(bs: seq<Block>, from: int)
    requires Contiguous(bs, from) && |bs| > 0
    ensures bs[|bs| - 1].endMin == from + TotalMinutes(bs)
    decreases |bs|
  {
    if |bs| > 1 {
      var rest := bs[1..];
      assert Contiguous(rest, bs[0].endMin) by {
        forall k | 0 < k < |rest| ensures rest[k].startMin == rest[k - 1].endMin {
          assert rest[k] == bs[k + 1] && rest[k - 1] == bs[k];
        }
      }
      LastEndsAtTotal(rest, bs[0].endMin);
      assert bs[|bs| - 1] == rest[|rest| - 1];
    }
  }

  /**
   * Minutes are conserved: what the blocks use is exactly what the queue
   * loses, and the queue stays valid.
   */
  lemma {:induction false} GeneralFillConserves(queue: seq<Cluster>, remaining: int, cursor: int, seg: string, counter: int)
    requires ValidQueue(queue)
    ensures var r := GeneralFill(queue, remaining, cursor, seg, counter);
      ValidQueue(r.queue) && QueueTotal(queue) == QueueTotal(r.queue) + TotalMinutes(r.blocks)
    decreases Max(remaining, 0)
  {
    if Proceeds(queue, remaining) {
      var slice := NextSlice(queue, remaining);
      var next := Advance(queue, slice);
      GeneralFillStep(queue, remaining, cursor, seg, counter);
      assert QueueTotal(queue) == queue[0].remaining + QueueTotal(queue[1..]);
      if queue[0].remaining - slice > 0 {
        assert QueueTotal(next) == queue[0].remaining - slice + QueueTotal(queue[1..]);
      }
      GeneralFillConserves(next, remaining - slice, cursor + slice, seg, counter + 1);
    }
  }

  /**
   * `r` is what is left of queue `q` after clusters are dequeued from the
   * front and the new head is possibly cut down.
   */
  predicate RestOf(q: seq<Cluster>, r: seq<Cluster>)
  {
    |r| <= |q| &&
    (|r| > 0 ==>
      r[1..] == q[|q| - |r| + 1..] &&
      r[0] == q[|q| - |r|].(remaining := r[0].remaining) &&
      r[0].remaining <= q[|q| - |r|].remaining)
  }

  lemma RestOfTrans(q: seq<Cluster>, next: seq<Cluster>, r: seq<Cluster>)
    requires RestOf(q, next) && RestOf(next, r)
    ensures RestOf(q, r)
  {
    var n, m, N := |r|, |next|, |q|;
    if n > 0 && n < m {
      assert next[m - n] == q[N - n];
      assert next[m - n + 1..] == q[N - n + 1..];
    }
  }

  lemma AdvanceRest(queue: seq<Cluster>, slice: int)
    requires queue != [] && slice >= 0
    ensures RestOf(queue, Advance(queue, slice))
  {
    var a := Advance(queue, slice);
    if queue[0].remaining - slice <= 0 && |a| > 0 {
      assert queue[|queue| - |a|] == queue[1];
      assert a[1..] == queue[2..];
    }
  }

  /** A cluster leaves the queue exactly when it is used up; the rest of the queue keeps its order. */
  lemma {:induction false} GeneralFillDequeues(queue: seq<Cluster>, remaining: int, cursor: int, seg: string, counter: int)
    ensures RestOf(queue, GeneralFill(queue, remaining, cursor, seg, counter).queue)
    decreases Max(remaining, 0)
  {
    if Proceeds(queue, remaining) {
      var slice := NextSlice(queue, remaining);
      var next := Advance(queue, slice);
      GeneralFillStep(queue, remaining, cursor, seg, counter);
      GeneralFillDequeues(next, remaining - slice, cursor + slice, seg, counter + 1);
      AdvanceRest(queue, slice);
      RestOfTrans(queue, next, GeneralFill(queue, remaining, cursor, seg, counter).queue);
    } else {
      var q := queue;
      if |q| > 0 {
        assert q[|q| - |q|..] == q;
      }
    }
  }

  /** Each block is a slice of one of the queued clusters. */
  lemma {:induction false} GeneralFillSlices(queue: seq<Cluster>, remaining: int, cursor: int, seg: string, counter: int)
    ensures var r := GeneralFill(queue, remaining, cursor, seg, counter);
      forall k :: 0 <= k < |r.blocks| ==> exists i :: 0 <= i < |queue| && SliceOf(r.blocks[k], queue[i])
    decreases Max(remaining, 0)
  {
    if Proceeds(queue, remaining) {
      var slice := NextSlice(queue, remaining);
      var next := Advance(queue, slice);
      GeneralFillStep(queue, remaining, cursor, seg, counter);
      GeneralFillSlices(next, remaining - slice, cursor + slice, seg, counter + 1);
      var r := GeneralFill(queue, remaining, cursor, seg, counter);
      var rest := GeneralFill(next, remaining - slice, cursor + slice, seg, counter + 1);
      forall k | 0 <= k < |r.blocks| ensures exists i :: 0 <= i < |queue| && SliceOf(r.blocks[k], queue[i]) {
        if k == 0 {
          assert SliceOf(r.blocks[0], queue[0]);
        } else {
          assert r.blocks[k] == rest.blocks[k - 1];
          var i :| 0 <= i < |next| && SliceOf(rest.blocks[k - 1], next[i]);
          if queue[0].remaining - slice <= 0 {
            assert next[i] == queue[i + 1];
          } else if i == 0 {
            assert SliceOf(r.blocks[k], queue[0]);
          } else {
            assert next[i] == queue[i];
          }
        }
      }
    }
  }

  /**
   * The fill stops only when it must: the queue is empty, the capacity is
   * spent, or the next slice would be shorter than 5 minutes.
   */
  lemma {:induction false} GeneralFillStops(queue: seq<Cluster>, remaining: int, cursor: int, seg: string, counter: int)
    ensures var r := GeneralFill(queue, remaining, cursor, seg, counter);
      !Proceeds(r.queue, remaining - TotalMinutes(r.blocks))
    decreases Max(remaining, 0)
  {
    if Proceeds(queue, remaining) {
      var slice := NextSlice(queue, remaining);
      GeneralFillStep(queue, remaining, cursor, seg, counter);
      GeneralFillStops(Advance(queue, slice), remaining - slice, cursor + slice, seg, counter + 1);
    }
  }

  /**
   * fillGeneralWindow. The window's blocks are appended to `out`; the queue
   * and the order counter are threaded through.
   */
  method FillGeneralWindow(out: seq<Block>, seg: string, start: int, end: int, multiplier: real,
                           queue: seq<Cluster>, counter: int)
    returns (out': seq<Block>, queue': seq<Cluster>, counter': int)
    ensures var r := GeneralFill(queue, WindowCap(start, end, multiplier), start, seg, counter);
      out' == out + r.blocks && queue' == r.queue && counter' == counter + |r.blocks|
  {
    var cap := WindowCap(start, end, multiplier);
    ghost var whole := GeneralFill(queue, cap, start, seg, counter);
    var remaining := cap;
    var cursor := start;
    var q := queue;
    var added: seq<Block> := [];
    counter' := counter;
    while remaining > 0 && |q| > 0
      invariant whole.blocks == added + GeneralFill(q, remaining, cursor, seg, counter').blocks
      invariant whole.queue == GeneralFill(q, remaining, cursor, seg, counter').queue
      invariant counter' == counter + |added|
      decreases Max(remaining, 0)
    {
      var cluster := q[0];
      var slice := Min(Min(SliceCap(cluster), cluster.remaining), remaining);
      if slice < MinGeneralSlice {
        break;
      }
      GeneralFillStep(q, remaining, cursor, seg, counter');
      ghost var next := Advance(q, slice);
      ghost var rest := GeneralFill(next, remaining - slice, cursor + slice, seg, counter' + 1);
      var block := SliceBlock(cluster, slice, seg, cursor, counter' + 1);
      assert added + ([block] + rest.blocks) == (added + [block]) + rest.blocks;
      counter' := counter' + 1;
      added := added + [block];
      remaining := remaining - slice;
      cursor := cursor + slice;
      var left := cluster.remaining - slice;
      if left <= 0 {
        q := q[1..];
      } else {
        q := [cluster.(remaining := left)] + q[1..];
      }
      assert q == next;
    }
    assert GeneralFill(q, remaining, cursor, seg, counter').blocks == [];
    assert added + [] == added;
    out' := out + added;
    queue' := q;
  }
}
