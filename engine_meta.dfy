/**
 * computeSegmentMeta: the extent of each segment ("AM", "PM", ...), from the
 * earliest start to the latest end of its windows, kept in the order in
 * which segments first appear.
 */
module EngineMeta {
  import opened Common
  import opened Clock
  import opened EngineTypes

  /** Start and end minutes of a window, when both clock strings read as times. */
  function WindowTimes(w: Window): (r: Option<(int, int)>)
    ensures r.Some? ==> ParseClock(w.start) == Some(r.value.0) && ParseClock(w.end) == Some(r.value.1)
    ensures r.None? ==> ParseClock(w.start).None? || ParseClock(w.end).None?
  {
    var s := ParseClock(w.start);
    var e := ParseClock(w.end);
    if s.Some? && e.Some? then Some((s.value, e.value)) else None
  }

  /** A window that contributes to its segment's extent: it names a segment and both times read. */
  predicate Counts(w: Window)
  {
    w.segment != "" && WindowTimes(w).Some?
  }

  /** Widen the span named `n` to cover [s, e], or append a new span for it. */
  function MergeSpan(meta: seq<Span>, n: string, s: int, e: int): (r: seq<Span>)
    decreases |meta|
  {
    if meta == [] then [Span(n, s, e)]
    else if meta[0].name == n then [Span(n, Min(meta[0].start, s), Max(meta[0].end, e))] + meta[1..]
    else [meta[0]] + MergeSpan(meta[1..], n, s, e)
  }

  function MetaStep(meta: seq<Span>, w: Window): seq<Span>
  {
    if Counts(w) then MergeSpan(meta, w.segment, WindowTimes(w).value.0, WindowTimes(w).value.1) else meta
  }

  /** The segment extents after the windows have been visited in order. */
  function SegmentMeta(ws: seq<Window>): seq<Span>
    decreases |ws|
  {
    if ws == [] then [] else MetaStep(SegmentMeta(ws[..|ws| - 1]), ws[|ws| - 1])
  }

  predicate UniqueNames(meta: seq<Span>)
  {
    forall i, j :: 0 <= i < j < |meta| ==> meta[i].name != meta[j].name
  }

  lemma {:induction false} MergeSpanLookup(meta: seq<Span>, n: string, s: int, e: int, q: string)
    ensures Lookup(MergeSpan(meta, n, s, e), q) ==
      if q != n then Lookup(meta, q)
      else if Lookup(meta, n).None? then Some(Span(n, s, e))
      else Some(Span(n, Min(Lookup(meta, n).value.start, s), Max(Lookup(meta, n).value.end, e)))
    decreases |meta|
  {
    if meta != [] && meta[0].name != n {
      MergeSpanLookup(meta[1..], n, s, e, q);
    }
  }

  lemma {:induction false} MergeSpanUnique(meta: seq<Span>, n: string, s: int, e: int)
    requires UniqueNames(meta)
    ensures UniqueNames(MergeSpan(meta, n, s, e))
    ensures forall sp :: sp in MergeSpan(meta, n, s, e) ==> sp.name == n || sp in meta
    decreases |meta|
  {
    if meta != [] && meta[0].name != n {
      MergeSpanUnique(meta[1..], n, s, e);
      var r := MergeSpan(meta, n, s, e);
      forall j | 1 <= j < |r| ensures r[0].name != r[j].name {
        assert r[j] in MergeSpan(meta[1..], n, s, e);
        if r[j].name != n {
          assert r[j] in meta[1..];
        }
      }
    }
  }

  /** How one window changes the span found under a name. */
  lemma MetaStepLookup(mp: seq<Span>, w: Window, q: string)
    ensures Lookup(MetaStep(mp, w), q) ==
      if !Counts(w) || q != w.segment then Lookup(mp, q)
      else if Lookup(mp, q).None? then Some(Span(q, WindowTimes(w).value.0, WindowTimes(w).value.1))
      else Some(Span(q, Min(Lookup(mp, q).value.start, WindowTimes(w).value.0),
                        Max(Lookup(mp, q).value.end, WindowTimes(w).value.1)))
  {
    if Counts(w) {
      MergeSpanLookup(mp, w.segment, WindowTimes(w).value.0, WindowTimes(w).value.1, q);
    }
  }

  lemma {:induction false} SegmentMetaUnique(ws: seq<Window>)
    ensures UniqueNames(SegmentMeta(ws))
    decreases |ws|
  {
    if ws != [] {
      var p := ws[..|ws| - 1];
      SegmentMetaUnique(p);
      var w := ws[|ws| - 1];
      if Counts(w) {
        MergeSpanUnique(SegmentMeta(p), w.segment, WindowTimes(w).value.0, WindowTimes(w).value.1);
      }
    }
  }

  /** A segment has a span exactly when one of its windows counts. */
  lemma {:induction false} SegmentMetaPresence(ws: seq<Window>, n: string)
    ensures Lookup(SegmentMeta(ws), n).Some? <==> exists w :: w in ws && Counts(w) && w.segment == n
    decreases |ws|
  {
    if ws != [] {
      var p := ws[..|ws| - 1];
      var w := ws[|ws| - 1];
      assert ws == p + [w];
      SegmentMetaPresence(p, n);
      MetaStepLookup(SegmentMeta(p), w, n);
      if exists v :: v in ws && Counts(v) && v.segment == n {
        var v :| v in ws && Counts(v) && v.segment == n;
        if v != w {
          assert v in p;
        }
      }
      if Lookup(SegmentMeta(ws), n).Some? && !(Counts(w) && w.segment == n) {
        var v :| v in p && Counts(v) && v.segment == n;
        assert v in ws;
      }
    }
  }

  /** The span of a window's segment covers that window. */
  lemma {:induction false} SegmentMetaCovers(ws: seq<Window>, v: Window)
    requires v in ws && Counts(v)
    ensures Lookup(SegmentMeta(ws), v.segment).Some?
    ensures Lookup(SegmentMeta(ws), v.segment).value.start <= WindowTimes(v).value.0
    ensures WindowTimes(v).value.1 <= Lookup(SegmentMeta(ws), v.segment).value.end
    decreases |ws|
  {
    var p := ws[..|ws| - 1];
    var w := ws[|ws| - 1];
    assert ws == p + [w];
    MetaStepLookup(SegmentMeta(p), w, v.segment);
    if v in p {
      SegmentMetaCovers(p, v);
    }
  }

  /** The start of each span is the start of one of its segment's windows, and likewise its end. */
  lemma {:induction false} SegmentMetaAttained(ws: seq<Window>, n: string)
    requires Lookup(SegmentMeta(ws), n).Some?
    ensures exists v :: v in ws && Counts(v) && v.segment == n && WindowTimes(v).value.0 == Lookup(SegmentMeta(ws), n).value.start
    ensures exists v :: v in ws && Counts(v) && v.segment == n && WindowTimes(v).value.1 == Lookup(SegmentMeta(ws), n).value.end
    decreases |ws|
  {
    var p := ws[..|ws| - 1];
    var w := ws[|ws| - 1];
    assert ws == p + [w];
    var sp := Lookup(SegmentMeta(ws), n).value;
    MetaStepLookup(SegmentMeta(p), w, n);
    if Lookup(SegmentMeta(p), n).None? {
      assert w in ws && WindowTimes(w).value.0 == sp.start && WindowTimes(w).value.1 == sp.end;
    } else {
      SegmentMetaAttained(p, n);
      var prev := Lookup(SegmentMeta(p), n).value;
      var v1 :| v1 in p && Counts(v1) && v1.segment == n && WindowTimes(v1).value.0 == prev.start;
      var v2 :| v2 in p && Counts(v2) && v2.segment == n && WindowTimes(v2).value.1 == prev.end;
      assert v1 in ws && v2 in ws;
      if Counts(w) && w.segment == n {
        assert w in ws;
      }
    }
  }

  /** computeSegmentMeta: one pass over the windows, widening or adding one span at a time. */
  method ComputeSegmentMeta(windows: seq<Window>) returns (meta: seq<Span>)
    ensures meta == SegmentMeta(windows)
    ensures UniqueNames(meta)
  {
    meta := [];
    var i := 0;
    while i < |windows|
      invariant 0 <= i <= |windows|
      invariant meta == SegmentMeta(windows[..i])
    {
      var w := windows[i];
      assert windows[..i + 1][..i] == windows[..i];
      if w.segment != "" && w.start != "" && w.end != "" {
        var times := WindowTimes(w);
        if times.Some? {
          meta := MergeSpan(meta, w.segment, times.value.0, times.value.1);
        }
      } else {
        ParseClockNeedsColon("");
      }
      i := i + 1;
    }
    assert windows[..i] == windows;
    SegmentMetaUnique(windows);
  }
}
