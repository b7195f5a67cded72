// Chart scoring and the choice of the next batch of charts to work.

module TaskDisplay {
  import opened Common
  import opened StableSort
  import opened Fmca

  /** The age tier: exactly one of +40 (80 days), +20 (30 days), +10 (7 days), else 0. */
  function AgeTier(ageDays: int): (t: int)
    ensures t == 40 <==> ageDays >= 80
    ensures t == 20 <==> 30 <= ageDays < 80
    ensures t == 10 <==> 7 <= ageDays < 30
    ensures t == 0 <==> ageDays < 7
  {
    if ageDays >= 80 then 40 else if ageDays >= 30 then 20 else if ageDays >= 7 then 10 else 0
  }

  /** score_chart(chart) */
  function ScoreChart(c: Chart): (score: int)
    ensures -20 <= score <= 100
    ensures c.requiredToday && c.ageDays >= 80 && c.kind == "attest" && !c.parked <==> score == 100
    ensures score == -20 <==> !c.requiredToday && c.ageDays < 7 && c.kind != "attest" && c.parked
  {
    var score := if c.requiredToday then 50 else 0;
    var score := score + AgeTier(c.ageDays);
    var score := if c.kind == "attest" then score + 10 else score;
    if c.parked then score - 20 else score
  }

  /** With every other field fixed, an older chart never scores lower. */
  lemma ScoreMonotoneInAge(c: Chart, older: int)
    requires older >= c.ageDays
    ensures ScoreChart(c) <= ScoreChart(c.(ageDays := older))
  {
  }

  /** Being required today is worth exactly 50 points. */
  lemma RequiredWorthFifty(c: Chart)
    ensures ScoreChart(c.(requiredToday := true)) == ScoreChart(c.(requiredToday := false)) + 50
  {
  }

  /** Parking a chart costs exactly 20 points. */
  lemma ParkedCostsTwenty(c: Chart)
    ensures ScoreChart(c.(parked := true)) == ScoreChart(c.(parked := false)) - 20
  {
  }

  function ScoreKey(c: Chart): int
  {
    ScoreChart(c)
  }

  /** `c.type != "attest"` as a sort key, negated so that attest charts (1) sort first. */
  function AttestKey(c: Chart): int
  {
    if c.kind == "attest" then 1 else 0
  }

  predicate LowEnergy(mode: string)
  {
    mode == "Recovery" || mode == "Turtle"
  }

  /** Python's `s[:n]`: a negative n counts back from the end. */
  function PySliceTo<T>(s: seq<T>, n: int): (r: seq<T>)
    ensures n >= 0 ==> r == s[..Min(n, |s|)]
    ensures n < 0 ==> r == s[..Max(|s| + n, 0)]
  {
    if n >= 0 then s[..Min(n, |s|)] else s[..Max(|s| + n, 0)]
  }

  /** The charts in the order they are offered, before the batch is cut. */
  function Ranked(charts: seq<Chart>, mode: string): seq<Chart>
  {
    var scored := SortDesc(charts, ScoreKey);
    if LowEnergy(mode) then SortDesc(scored, AttestKey) else scored
  }

  /** get_top_batch(charts, mode, batch_size) */
  function GetTopBatch(charts: seq<Chart>, mode: string, batchSize: int): (r: seq<Chart>)
    ensures IsSeqPrefix(r, Ranked(charts, mode))
    ensures |r| == if batchSize >= 0 then Min(batchSize, |charts|) else Max(|charts| + batchSize, 0)
  {
    RankedPermutes(charts, mode);
    PySliceTo(Ranked(charts, mode), batchSize)
  }

  /** Ranking is a permutation of the input. */
  lemma RankedPermutes(charts: seq<Chart>, mode: string)
    ensures multiset(Ranked(charts, mode)) == multiset(charts)
    ensures |Ranked(charts, mode)| == |charts|
  {
    SortDescCorrect(charts, ScoreKey);
    SortDescCorrect(SortDesc(charts, ScoreKey), AttestKey);
  }

  /**
   * The batch is drawn from the input without duplication and holds
   * min(batch_size, |charts|) charts for a non-negative batch size.
   */
  lemma {:induction false} TopBatchDrawn(charts: seq<Chart>, mode: string, batchSize: int)
    ensures multiset(GetTopBatch(charts, mode, batchSize)) <= multiset(charts)
    ensures batchSize >= 0 ==> |GetTopBatch(charts, mode, batchSize)| == Min(batchSize, |charts|)
    ensures batchSize < 0 ==> |GetTopBatch(charts, mode, batchSize)| == Max(|charts| + batchSize, 0)
  {
    var ranked := Ranked(charts, mode);
    RankedPermutes(charts, mode);
    var n := if batchSize >= 0 then Min(batchSize, |ranked|) else Max(|ranked| + batchSize, 0);
    assert ranked[..n] + ranked[n..] == ranked;
    assert multiset(ranked[..n]) <= multiset(ranked);
  }

  /**
   * Outside Recovery and Turtle the batch is ordered by non-increasing score,
   * and the charts of each score come in their input order.
   */
  lemma {:induction false} TopBatchByScore(charts: seq<Chart>, mode: string, batchSize: int, k: int)
    requires !LowEnergy(mode)
    ensures SortedDesc(GetTopBatch(charts, mode, batchSize), ScoreKey)
    ensures IsSeqPrefix(KeyFilter(GetTopBatch(charts, mode, batchSize), ScoreKey, k), KeyFilter(charts, ScoreKey, k))
  {
    var ranked := SortDesc(charts, ScoreKey);
    SortDescCorrect(charts, ScoreKey);
    SortDescStable(charts, ScoreKey, k);
    var n := |GetTopBatch(charts, mode, batchSize)|;
    assert GetTopBatch(charts, mode, batchSize) == ranked[..n];
    SortedPrefix(ranked, n, ScoreKey);
    KeyFilterPrefix(ranked, n, ScoreKey, k);
  }

  /**
   * In Recovery and Turtle every attest chart precedes every other chart,
   * and within each group the charts stay in score order.
   */
  lemma {:induction false} TopBatchAttestFirst(charts: seq<Chart>, mode: string, batchSize: int, g: int)
    requires LowEnergy(mode)
    ensures SortedDesc(GetTopBatch(charts, mode, batchSize), AttestKey)
    ensures SortedDesc(KeyFilter(GetTopBatch(charts, mode, batchSize), AttestKey, g), ScoreKey)
  {
    var scored := SortDesc(charts, ScoreKey);
    var ranked := SortDesc(scored, AttestKey);
    SortDescCorrect(charts, ScoreKey);
    SortDescCorrect(scored, AttestKey);
    SortDescStable(scored, AttestKey, g);
    KeyFilterKeepsSorted(scored, ScoreKey, AttestKey, g);
    var n := |GetTopBatch(charts, mode, batchSize)|;
    assert GetTopBatch(charts, mode, batchSize) == ranked[..n];
    SortedPrefix(ranked, n, AttestKey);
    KeyFilterPrefix(ranked, n, AttestKey, g);
    var f := KeyFilter(ranked[..n], AttestKey, g);
    var whole := KeyFilter(ranked, AttestKey, g);
    assert f == whole[..|f|];
    SortedPrefix(whole, |f|, ScoreKey);
  }

  /**
   * The charts are offered by non-increasing score; in Recovery and Turtle,
   * attest charts first and, within each group, by non-increasing score.
   */
  lemma RankedOrder(charts: seq<Chart>, mode: string)
    ensures !LowEnergy(mode) ==> SortedDesc(Ranked(charts, mode), ScoreKey)
    ensures LowEnergy(mode) ==> LexSorted(Ranked(charts, mode), AttestKey, ScoreKey)
  {
    SortDescCorrect(charts, ScoreKey);
    SortDescLex(SortDesc(charts, ScoreKey), AttestKey, ScoreKey);
  }

  /**
   * The batch holds the best-ranked charts: no chart left out ranks above a
   * chart in the batch, by score outside Recovery and Turtle and, in them,
   * by attest first and score second.
   */
  lemma TopBatchBest(charts: seq<Chart>, mode: string, batchSize: int, c: Chart, d: Chart)
    requires c in GetTopBatch(charts, mode, batchSize)
    requires d in multiset(charts) - multiset(GetTopBatch(charts, mode, batchSize))
    ensures !LowEnergy(mode) ==> ScoreChart(d) <= ScoreChart(c)
    ensures LowEnergy(mode) && d.kind == "attest" ==> c.kind == "attest"
    ensures LowEnergy(mode) && (c.kind == "attest" <==> d.kind == "attest") ==> ScoreChart(d) <= ScoreChart(c)
  {
    var ranked := Ranked(charts, mode);
    RankedPermutes(charts, mode);
    RankedOrder(charts, mode);
    var n := if batchSize >= 0 then Min(batchSize, |ranked|) else Max(|ranked| + batchSize, 0);
    assert GetTopBatch(charts, mode, batchSize) == ranked[..n];
    if LowEnergy(mode) {
      LexPrefixFirst(ranked, n, AttestKey, ScoreKey, c, d);
    } else {
      SortedPrefixFirst(ranked, n, ScoreKey, c, d);
    }
  }

  /** Every attest chart in the low-energy batch comes before every non-attest one. */
  lemma AttestBeforeOthers(charts: seq<Chart>, mode: string, batchSize: int, i: nat, j: nat)
    requires LowEnergy(mode)
    requires i < |GetTopBatch(charts, mode, batchSize)| && j < |GetTopBatch(charts, mode, batchSize)|
    requires GetTopBatch(charts, mode, batchSize)[i].kind == "attest"
    requires GetTopBatch(charts, mode, batchSize)[j].kind != "attest"
    ensures i < j
  {
    TopBatchAttestFirst(charts, mode, batchSize, 0);
  }
}
