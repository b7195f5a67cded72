/**
 * Wall-clock strings "HH:MM" and minutes since midnight, as both the itinerary
 * engine (toMinutes/toTime) and the adaptive day planner
 * (toMinutes/toTimeString) convert between them.
 */
module Clock {
  import opened Common

  /**
   * toMinutes: the string is split on ':' and the first two parts are read
   * as numbers; fewer than two parts, or a part that is not a number, gives
   * NaN (here None). An empty part reads as 0. Parts after the second are
   * ignored.
   */
  function ParseClock(s: string): (r: Option<int>)
    ensures r.Some? ==> r.value >= 0
  {
    var parts := Split(s, ':');
    if |parts| < 2 || !AllDigits(parts[0]) || !AllDigits(parts[1]) then None
    else Some(ParseDigits(parts[0]) * 60 + ParseDigits(parts[1]))
  }

  /** A string without a colon is not a clock time. */
  lemma {:induction false} ParseClockNeedsColon(s: string)
    requires ':' !in s
    ensures ParseClock(s) == None
  {
    SplitNoSeparator(s, ':');
  }

  /** The two decimal digits of a number below 100. */
  function TwoDigits(n: nat): (s: string)
    requires n < 100
    ensures |s| == 2 && AllDigits(s)
  {
    [DigitChar(n / 10), DigitChar(n % 10)]
  }

  /** pad: String(n).padStart(2, '0'); a number below 100 becomes exactly its two digits. */
  function Pad(n: nat): (s: string)
    ensures n < 100 ==> s == TwoDigits(n)
  {
    if n < 100 then PadTwoDigits(n); PadStart2(NatToString(n)) else PadStart2(NatToString(n))
  }

  /**
   * toTime / toTimeString for whole minutes: negative input reads as 0, the
   * hour wraps modulo 24, and both fields are zero-padded to two digits.
   */
  function ToTime(m: int): (s: string)
    ensures |s| == 5 && s[2] == ':'
    ensures AllDigits(s[..2]) && AllDigits(s[3..])
  {
    var safe := Max(0, m);
    Pad((safe / 60) % 24) + ":" + Pad(safe % 60)
  }

  lemma {:induction false} ParseTwo(c1: char, c2: char)
    requires IsDigit(c1) && IsDigit(c2)
    ensures AllDigits([c1, c2])
    ensures ParseDigits([c1, c2]) == DigitValue(c1) * 10 + DigitValue(c2)
  {
    var s := [c1, c2];
    assert s[..|s| - 1] == [c1];
    assert [c1][..0] == [];
    assert ParseDigits([c1]) == DigitValue(c1);
  }

  lemma {:induction false} TwoDigitValue(a: nat)
    requires a < 100
    ensures ParseDigits(TwoDigits(a)) == a
  {
    ParseTwo(DigitChar(a / 10), DigitChar(a % 10));
    DigitRoundTrip(a / 10);
    DigitRoundTrip(a % 10);
  }

  /** A string "<digits>:<digits>" reads as hours * 60 + minutes. */
  lemma {:induction false} ParseClockDigits(h: string, m: string)
    requires AllDigits(h) && AllDigits(m)
    ensures ParseClock(h + ":" + m) == Some(ParseDigits(h) * 60 + ParseDigits(m))
  {
    var s := h + ":" + m;
    assert ':' !in h;
    assert ':' !in m;
    assert s == h + [':'] + m;
    assert s[|h|] == ':';
    SplitAtSeparator(h, m, ':');
    SplitNoSeparator(m, ':');
  }

  /** Within a day, ToTime(m) is the two digits of the hour, a colon and the two digits of the minute. */
  lemma ToTimeInDay(m: int)
    requires 0 <= m < 1440
    ensures ToTime(m) == TwoDigits(m / 60) + ":" + TwoDigits(m % 60)
  {
    assert (m / 60) % 24 == m / 60;
  }

  /** Rendering a minute of the day and reading it back gives the same minute. */
  lemma ToTimeRoundTrip(m: int)
    requires 0 <= m < 1440
    ensures ParseClock(ToTime(m)) == Some(m)
  {
    ToTimeInDay(m);
    TwoDigitValue(m / 60);
    TwoDigitValue(m % 60);
    ParseClockDigits(TwoDigits(m / 60), TwoDigits(m % 60));
  }

  lemma {:induction false} DayDivMod(m: nat)
    ensures (m / 60) % 24 == ((m % 1440) / 60) % 24
    ensures m % 60 == (m % 1440) % 60
  {
    var q := m / 1440;
    var r := m % 1440;
    assert m == 1440 * q + r;
    assert m == 60 * (24 * q + r / 60) + r % 60;
    assert m / 60 == 24 * q + r / 60 && m % 60 == r % 60;
    assert (24 * q + r / 60) % 24 == r / 60;
    assert r / 60 < 24;
  }

  /** Hours wrap: a time a whole number of days later renders the same. */
  lemma ToTimeWraps(m: int)
    requires m >= 0
    ensures ToTime(m) == ToTime(m % 1440)
  {
    var a := m % 1440;
    DayDivMod(m);
    assert ToTime(m) == Pad((m / 60) % 24) + ":" + Pad(m % 60);
    assert ToTime(a) == Pad((a / 60) % 24) + ":" + Pad(a % 60);
  }

  /** Negative minutes render as midnight. */
  lemma {:induction false} ToTimeNegative(m: int)
    requires m < 0
    ensures ToTime(m) == "00:00"
  {
  }
}
