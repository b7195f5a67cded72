// The browser client's pure formatting and lookup helpers, and the chart
// carousel's index step.

module AppHelpers {
  import opened Common
  import Clock
  import TaskStorage
  import Fmca
  import ModeBand

  // ---------------------------------------------------------------- formatTime

  /** JavaScript's `a % b` for b > 0: the remainder takes the sign of `a`. */
  function JsRem(a: int, b: int): (r: int)
    requires b > 0
    ensures a >= 0 ==> r == a % b
    ensures a < 0 ==> -b < r <= 0
  {
    if a >= 0 then a % b else -((-a) % b)
  }

  /**
   * formatTime(totalSeconds): whole minutes (floored) padded to at least two
   * characters, a colon, and the seconds (0 for negative input) in two digits.
   */
  function FormatTime(totalSeconds: int): (r: string)
    ensures |r| >= 5 && r[|r| - 3] == ':'
    ensures totalSeconds < 0 ==> r[|r| - 2..] == "00"
  {
    var minutes := totalSeconds / 60;
    var seconds := Max(JsRem(totalSeconds, 60), 0);
    PadStart2(IntToString(minutes)) + ":" + Clock.TwoDigits(seconds)
  }

  /** Padding a number's digits to two places does not change the number they spell. */
  lemma {:induction false} PadParse(n: nat)
    ensures AllDigits(PadStart2(NatToString(n)))
    ensures ParseDigits(PadStart2(NatToString(n))) == n
  {
    var s := NatToString(n);
    ParseNatToString(n);
    if |s| < 2 {
      assert s == [s[0]];
      Clock.ParseTwo('0', s[0]);
      assert PadStart2(s) == ['0', s[0]];
      assert ParseDigits([s[0]]) == DigitValue(s[0]) by {
        assert [s[0]][..0] == [];
      }
    }
  }

  /** For a non-negative count the two halves are the padded minutes and the two-digit seconds. */
  lemma FormatTimeParts(s: nat)
    ensures FormatTime(s) == PadStart2(NatToString(s / 60)) + ":" + Clock.TwoDigits(s % 60)
  {
    assert IntToString(s / 60) == NatToString(s / 60);
    assert Max(JsRem(s, 60), 0) == s % 60;
  }

  /** A clock string whose halves spell q and r reads back as q * 60 + r. */
  lemma ParseParts(t: string, mm: string, ss: string, q: nat, r: nat)
    requires t == mm + ":" + ss
    requires AllDigits(mm) && ParseDigits(mm) == q
    requires AllDigits(ss) && ParseDigits(ss) == r
    ensures Clock.ParseClock(t) == Some(q * 60 + r)
  {
    Clock.ParseClockDigits(mm, ss);
  }

  /** For a non-negative count, reading "MM:SS" back as minutes * 60 + seconds gives the count. */
  lemma {:induction false} FormatTimeRoundTrip(s: nat)
    ensures Clock.ParseClock(FormatTime(s)) == Some(s)
  {
    var q, r := s / 60, s % 60;
    assert q * 60 + r == s;
    var mm, ss := PadStart2(NatToString(q)), Clock.TwoDigits(r);
    FormatTimeParts(s);
    PadParse(q);
    Clock.TwoDigitValue(r);
    ParseParts(FormatTime(s), mm, ss, q, r);
  }

  /** Under 100 minutes the display is exactly "MM:SS". */
  lemma {:induction false} FormatTimeShort(s: nat)
    requires s < 6000
    ensures FormatTime(s) == Clock.TwoDigits(s / 60) + ":" + Clock.TwoDigits(s % 60)
  {
    PadTwoDigits(s / 60);
  }

  // ---------------------------------------------------------------- swap duration

  const DefaultSwapDuration: int := 12 * 60

  /** swapThresholds, by lower-case mode name (seconds). */
  function SwapThreshold(name: string): Option<int>
  {
    if name == "recovery" then Some(20 * 60)
    else if name == "turtle" then Some(18 * 60)
    else if name == "cruise" then Some(15 * 60)
    else if name == "unicorn" then Some(12 * 60)
    else None
  }

  /** getSwapDurationForMode(mode); `None` stands for a missing mode. */
  function GetSwapDurationForMode(mode: Option<string>): (secs: int)
    ensures var n := Lower(if mode.Some? then mode.value else "");
      (SwapThreshold(n).Some? ==> secs == SwapThreshold(n).value) &&
      (SwapThreshold(n).None? ==> secs == DefaultSwapDuration)
    ensures secs in {1200, 1080, 900, 720}
  {
    var normalized := Lower(if mode.Some? then mode.value else "");
    var hit := SwapThreshold(normalized);
    if hit.Some? then hit.value else DefaultSwapDuration
  }

  /** The lookup ignores letter case. */
  lemma {:induction false} SwapDurationIgnoresCase(s: string)
    ensures GetSwapDurationForMode(Some(s)) == GetSwapDurationForMode(Some(Lower(s)))
  {
    LowerIdempotent(s);
  }

  lemma {:induction false} LowerOfLower(s: string)
    requires forall i :: 0 <= i < |s| ==> !('A' <= s[i] <= 'Z')
    ensures Lower(s) == s
  {
  }

  /**
   * With the band names the capacity service uses, the client's swap timer
   * shortens as capacity rises: Recovery 20, Turtle 18, Cruise 15, Unicorn
   * 12 minutes.
   */
  lemma {:induction false} SwapTimerByBand(a: ModeBand.Mode, b: ModeBand.Mode)
    requires ModeBand.Rank(a) <= ModeBand.Rank(b)
    ensures GetSwapDurationForMode(Some(ModeBand.ModeName(a))) >= GetSwapDurationForMode(Some(ModeBand.ModeName(b)))
  {
    assert Lower("Recovery") == "recovery";
    assert Lower("Turtle") == "turtle";
    assert Lower("Cruise") == "cruise";
    assert Lower("Unicorn") == "unicorn";
  }

  // ---------------------------------------------------------------- getLaneCount

  /** `data?.[key]` on a parsed object; `None` is undefined. */
  function Get(data: Option<Json>, key: string): Option<Json>
  {
    if data.Some? && data.value.JObj? then
      var at := TaskStorage.FieldIndex(data.value.fields, key);
      if at.Some? then Some(data.value.fields[at.value].1) else None
    else None
  }

  predicate Nullish(v: Option<Json>)
  {
    v.None? || v.value.JNull?
  }

  /** An array counts its items, a number is itself, anything else is null (`None`). */
  function Count(v: Option<Json>): Option<real>
  {
    if v.Some? && v.value.JArr? then Some(|v.value.items| as real)
    else if v.Some? && v.value.JNum? then Some(v.value.n)
    else None
  }

  /** getLaneCount(data, key, altKey); an absent or empty altKey is `None`/"". */
  function GetLaneCount(data: Option<Json>, key: string, altKey: Option<string>): (r: Option<real>)
    ensures !Nullish(Get(data, key)) ==> r == Count(Get(data, key))
    ensures Nullish(Get(data, key)) && altKey.Some? && altKey.value != "" ==> r == Count(Get(data, altKey.value))
    ensures Nullish(Get(data, key)) && (altKey.None? || altKey.value == "") ==> r == None
  {
    var primary := Get(data, key);
    var value := if !Nullish(primary) then primary
      else if altKey.Some? && altKey.value != "" then Get(data, altKey.value)
      else None;
    Count(value)
  }

  /** When the primary key holds a value, the alternative key is never consulted. */
  lemma PrimaryKeyWins(data: Option<Json>, key: string, alt1: Option<string>, alt2: Option<string>)
    requires !Nullish(Get(data, key))
    ensures GetLaneCount(data, key, alt1) == GetLaneCount(data, key, alt2)
  {
  }

  /** A lane list stored under the key counts its lanes. */
  lemma {:induction false} LaneListCounted(fields: seq<(string, Json)>, key: string, lanes: seq<Json>, alt: Option<string>)
    requires forall i :: 0 <= i < |fields| ==> fields[i].0 != key
    ensures GetLaneCount(Some(JObj(fields + [(key, JArr(lanes))])), key, alt) == Some(|lanes| as real)
  {
    var all := fields + [(key, JArr(lanes))];
    var at := TaskStorage.FieldIndex(all, key);
    assert all[|fields|].0 == key;
    assert at.Some? && at.value == |fields|;
  }

  // ---------------------------------------------------------------- labels

  /** `part.charAt(0).toUpperCase() + part.slice(1)` */
  function Capitalize(part: string): (r: string)
    ensures |r| == |part|
    ensures |part| > 0 ==> r[0] == UpperChar(part[0]) && r[1..] == part[1..]
  {
    if part == "" then "" else [UpperChar(part[0])] + part[1..]
  }

  function CapitalizeAll(parts: seq<string>): (r: seq<string>)
    ensures |r| == |parts|
    ensures forall k :: 0 <= k < |parts| ==> r[k] == Capitalize(parts[k])
  {
    seq(|parts|, k requires 0 <= k < |parts| => Capitalize(parts[k]))
  }

  /** formatLaneLabel(label); `None` is a missing label. */
  function FormatLaneLabel(name: Option<string>): (r: string)
    ensures name.Some? && name.value != "" ==> LaneLabelOf(name.value, r)
  {
    if name.None? || name.value == "" then "Unknown lane"
    else
      LaneLabelChars(name.value);
      Join(CapitalizeAll(Split(name.value, '_')), ' ')
  }

  /** The lane label character by character: each '_' becomes a space and each part's first character is upper-cased. */
  predicate LaneLabelOf(s: string, r: string)
  {
    && |r| == |s|
    && (forall i :: 0 <= i < |s| && s[i] == '_' ==> r[i] == ' ')
    && (|s| > 0 && s[0] != '_' ==> r[0] == UpperChar(s[0]))
    && (forall i :: 0 < i < |s| && s[i] != '_' && s[i - 1] == '_' ==> r[i] == UpperChar(s[i]))
    && (forall i :: 0 < i < |s| && s[i] != '_' && s[i - 1] != '_' ==> r[i] == s[i])
  }

  lemma {:induction false} CapitalizeJoinStep(p: string, rest: string, cr: string)
    requires '_' !in p
    requires LaneLabelOf(rest, cr)
    ensures LaneLabelOf(p + "_" + rest, Capitalize(p) + " " + cr)
  {
    var s := p + "_" + rest;
    var r := Capitalize(p) + " " + cr;
    assert |r| == |s|;
    forall i | 0 <= i < |s|
      ensures s[i] == '_' ==> r[i] == ' '
      ensures i == 0 && s[i] != '_' ==> r[i] == UpperChar(s[i])
      ensures i > 0 && s[i] != '_' && s[i - 1] == '_' ==> r[i] == UpperChar(s[i])
      ensures i > 0 && s[i] != '_' && s[i - 1] != '_' ==> r[i] == s[i]
    {
      if i < |p| {
        assert s[i] == p[i] && r[i] == Capitalize(p)[i];
        if i == 0 {
          assert r[i] == UpperChar(s[i]);
        } else {
          assert s[i - 1] == p[i - 1];
          assert p[i - 1] in p;
          assert Capitalize(p)[i] == Capitalize(p)[1..][i - 1];
        }
      } else if i == |p| {
        assert s[i] == '_' && r[i] == ' ';
      } else {
        var j := i - |p| - 1;
        assert s[i] == rest[j] && r[i] == cr[j];
        if j > 0 {
          assert s[i - 1] == rest[j - 1];
        } else {
          assert s[i - 1] == '_';
          assert s[i] != '_' ==> cr[0] == UpperChar(rest[0]);
        }
      }
    }
  }

  /** Without any '_' the label is the text with its first character upper-cased. */
  lemma {:induction false} LaneLabelOnePart(s: string)
    requires '_' !in s
    ensures LaneLabelOf(s, Join(CapitalizeAll(Split(s, '_')), ' '))
  {
    SplitNoSeparator(s, '_');
    assert CapitalizeAll([s]) == [Capitalize(s)];
    var r := Capitalize(s);
    forall i | 0 <= i < |s|
      ensures s[i] != '_'
      ensures i > 0 ==> r[i] == s[i]
    {
      assert s[i] in s;
      if i > 0 {
        assert r[i] == r[1..][i - 1];
      }
    }
  }

  function FirstUnderscore(s: string, from: nat): (k: nat)
    requires from <= |s|
    requires exists i :: from <= i < |s| && s[i] == '_'
    ensures from <= k < |s| && s[k] == '_'
    ensures forall m :: from <= m < k ==> s[m] != '_'
    decreases |s| - from
  {
    if s[from] == '_' then from else FirstUnderscore(s, from + 1)
  }

  /** The text before the first '_', and the rest after it. */
  lemma {:induction false} FirstPart(s: string) returns (p: string, rest: string)
    requires '_' in s
    ensures '_' !in p && s == p + "_" + rest && |rest| < |s|
  {
    var k := FirstUnderscore(s, 0);
    p := s[..k];
    rest := s[k + 1..];
    forall m | 0 <= m < k
      ensures p[m] != '_'
    {
    }
    assert s == p + "_" + rest;
  }

  lemma {:induction false} JoinCapitalizedStep(p: string, parts: seq<string>)
    requires |parts| >= 1
    ensures Join(CapitalizeAll([p] + parts), ' ') == Capitalize(p) + " " + Join(CapitalizeAll(parts), ' ')
  {
    var caps := CapitalizeAll([p] + parts);
    assert caps[0] == Capitalize(p);
    assert caps[1..] == CapitalizeAll(parts);
  }

  /** Splitting on '_', capitalising every part and joining with spaces works character by character. */
  lemma {:induction false} LaneLabelChars(s: string)
    ensures LaneLabelOf(s, Join(CapitalizeAll(Split(s, '_')), ' '))
    decreases |s|
  {
    if '_' !in s {
      LaneLabelOnePart(s);
    } else {
      var p, rest := FirstPart(s);
      SplitAtSeparator(p, rest, '_');
      assert Split(s, '_') == [p] + Split(rest, '_');
      LaneLabelChars(rest);
      JoinCapitalizedStep(p, Split(rest, '_'));
      CapitalizeJoinStep(p, rest, Join(CapitalizeAll(Split(rest, '_')), ' '));
    }
  }

  /** A missing or empty lane label reads "Unknown lane". */
  lemma UnknownLane(name: Option<string>)
    requires name.None? || name == Some("")
    ensures FormatLaneLabel(name) == "Unknown lane"
  {
  }

  /** formatActionLabel(action): every '_' becomes a space and nothing else changes. */
  function FormatActionLabel(action: string): (r: string)
    ensures |r| == |action|
    ensures forall i :: 0 <= i < |action| ==> r[i] == if action[i] == '_' then ' ' else action[i]
    decreases |action|
  {
    if action == [] then []
    else [if action[0] == '_' then ' ' else action[0]] + FormatActionLabel(action[1..])
  }

  /** The action label has no '_' left, and applying it twice changes nothing more. */
  lemma {:induction false} ActionLabelSettled(action: string)
    ensures '_' !in FormatActionLabel(action)
    ensures FormatActionLabel(FormatActionLabel(action)) == FormatActionLabel(action)
  {
    var r := FormatActionLabel(action);
    assert forall i :: 0 <= i < |r| ==> r[i] != '_';
  }

  /** A lane label is the action label of the same text once each part starts upper-case. */
  lemma {:induction false} LaneLabelIsActionLabel(s: string)
    requires s != "" && UpperChar(s[0]) == s[0]
    requires forall i :: 0 < i < |s| && s[i - 1] == '_' ==> UpperChar(s[i]) == s[i]
    ensures FormatLaneLabel(Some(s)) == FormatActionLabel(s)
  {
    LaneLabelChars(s);
    var a := FormatLaneLabel(Some(s));
    var b := FormatActionLabel(s);
    forall i | 0 <= i < |s|
      ensures a[i] == b[i]
    {
      if s[i] == '_' {
        assert a[i] == ' ';
      } else if i == 0 {
        assert a[i] == UpperChar(s[i]);
      } else if s[i - 1] == '_' {
        assert a[i] == UpperChar(s[i]);
      } else {
        assert a[i] == s[i];
      }
    }
  }

  // ---------------------------------------------------------------- action highlight

  /** getActionHighlightClass(action); `None` is a missing action and the result `None` is null. */
  function GetActionHighlightClass(action: Option<string>): (r: Option<string>)
    ensures var n := Lower(if action.Some? then action.value else "");
      r.Some? <==> n in {"micro_unstick", "accelerator", "swap_3", "escalate", "escalated"}
    ensures r.Some? ==> r.value in {"pill--warning", "pill--success", "pill--accent", "pill--danger"}
  {
    var normalized := Lower(if action.Some? then action.value else "");
    if normalized == "micro_unstick" then Some("pill--warning")
    else if normalized == "accelerator" then Some("pill--success")
    else if normalized == "swap_3" then Some("pill--accent")
    else if normalized == "escalate" || normalized == "escalated" then Some("pill--danger")
    else None
  }

  /** Two actions share a class only when they name the same action, ignoring case, or both name an escalation. */
  lemma HighlightClassesDistinct(a: string, b: string)
    requires GetActionHighlightClass(Some(a)).Some?
    requires GetActionHighlightClass(Some(a)) == GetActionHighlightClass(Some(b))
    ensures Lower(a) == Lower(b) || (Lower(a) in {"escalate", "escalated"} && Lower(b) in {"escalate", "escalated"})
  {
  }

  /**
   * Every FMCA timeline action except "working" is highlighted, and the
   * chart status "escalated" shares the escalation colour.
   */
  lemma {:induction false} TimelineActionsHighlighted(e: Fmca.Event)
    ensures GetActionHighlightClass(Some(Fmca.Action(e))).Some? <==> !e.Work?
    ensures e.Escalated? ==> GetActionHighlightClass(Some(Fmca.Action(e))) == GetActionHighlightClass(Some("escalated"))
  {
    LowerOfLower(Fmca.Action(e));
    LowerOfLower("escalated");
  }

  // ---------------------------------------------------------------- carousel

  /** The next index: one step forward while not at the last chart. */
  function NextIndex(index: int, length: nat): (r: int)
    ensures 0 <= index < length ==> 0 <= r < length
    ensures r == index || r == index + 1
  {
    if length == 0 then index else if index < length - 1 then index + 1 else index
  }

  /** `k` presses of "next" from the first chart. */
  function Advance(length: nat, k: nat): int
  {
    if k == 0 then 0 else NextIndex(Advance(length, k - 1), length)
  }

  /** Pressing "next" k times from the first chart shows chart min(k, length - 1). */
  lemma {:induction false} AdvanceStops(length: nat, k: nat)
    requires length > 0
    ensures Advance(length, k) == Min(k, length - 1)
  {
    if k > 0 {
      AdvanceStops(length, k - 1);
    }
  }

  /** The status line updateCarousel writes for the chart at `index` of the batch. */
  function CarouselStatus(batch: seq<Json>, index: int): (r: string)
    ensures r == "Load a sprint to begin." <==> batch == []
    ensures batch != [] ==> IsPrefix("Chart ", r)
  {
    if batch == [] then "Load a sprint to begin."
    else
      var r := "Chart " + IntToString(index + 1) + " of " + IntToString(|batch|);
      assert r[0] == 'C' != "Load a sprint to begin."[0];
      r
  }

  /** The carousel's state: the loaded batch, the index shown and the status line. */
  class Carousel {
    var chartBatch: seq<Json>
    var currentChartIndex: int
    var statusText: string

    predicate InRange()
      reads this
    {
      chartBatch == [] || 0 <= currentChartIndex < |chartBatch|
    }

    /**
     * hydrateBatch(charts): an array is loaded (anything else, or a missing
     * value, as an empty batch) at its first chart, and the carousel redrawn.
     */
    constructor (charts: Option<Json>)
      ensures charts.Some? && charts.value.JArr? ==> chartBatch == charts.value.items
      ensures !(charts.Some? && charts.value.JArr?) ==> chartBatch == []
      ensures currentChartIndex == 0
      ensures chartBatch == [] ==> statusText == "Load a sprint to begin."
      ensures chartBatch != [] ==> statusText == "Chart 1 of " + IntToString(|chartBatch|)
      ensures InRange()
    {
      var batch := if charts.Some? && charts.value.JArr? then charts.value.items else [];
      chartBatch := batch;
      currentChartIndex := 0;
      statusText := CarouselStatus(batch, 0);
    }

    /**
     * handleNextChart(): advances below the last chart and redraws the status
     * line; otherwise writes the empty-batch or end-of-batch message.
     */
    method HandleNextChart()
      modifies this`currentChartIndex, this`statusText
      ensures currentChartIndex == NextIndex(old(currentChartIndex), |chartBatch|)
      ensures chartBatch == [] ==> statusText == "No batch loaded. Re-init to fetch charts."
      ensures chartBatch != [] && old(currentChartIndex) < |chartBatch| - 1 ==>
        statusText == "Chart " + IntToString(old(currentChartIndex) + 2) + " of " + IntToString(|chartBatch|)
      ensures chartBatch != [] && old(currentChartIndex) >= |chartBatch| - 1 ==>
        statusText == "End of batch reached. Re-init for a new plan."
      ensures old(InRange()) ==> InRange()
    {
      if |chartBatch| == 0 {
        statusText := "No batch loaded. Re-init to fetch charts.";
        return;
      }
      if currentChartIndex < |chartBatch| - 1 {
        currentChartIndex := currentChartIndex + 1;
        statusText := CarouselStatus(chartBatch, currentChartIndex);
      } else {
        statusText := "End of batch reached. Re-init for a new plan.";
      }
    }
  }
}
