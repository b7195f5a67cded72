// The capacity service's small pure helpers: clamping, soft normalisation,
// the overload term for few visible items, the mode band chosen from the
// capacity estimate etaH, and the fixed controls table per mode.

module ModeBand {
  import opened Common
  import Fmca

  /** clamp(val, min_val, max_val) = max(min_val, min(val, max_val)) */
  function Clamp(v: real, lo: real, hi: real): (r: real)
    ensures lo <= v <= hi ==> r == v
    ensures lo <= hi && v < lo ==> r == lo
    ensures lo <= hi && v > hi ==> r == hi
    ensures lo <= hi ==> lo <= r <= hi
    ensures lo > hi ==> r == lo
  {
    var m := if v <= hi then v else hi;
    if lo >= m then lo else m
  }

  /** norm(x) = min(max(x, 0), 1) */
  function Norm(x: real): (r: real)
    ensures 0.0 <= r <= 1.0
    ensures 0.0 <= x <= 1.0 ==> r == x
    ensures x < 0.0 ==> r == 0.0
    ensures x > 1.0 ==> r == 1.0
  {
    var m := if x >= 0.0 then x else 0.0;
    if m <= 1.0 then m else 1.0
  }

  /** norm is clamp to [0, 1]. */
  lemma NormIsClamp(x: real)
    ensures Norm(x) == Clamp(x, 0.0, 1.0)
  {
  }

  /**
   * Qoverload(N_vis): 0 when at most 3 items are visible. Above 3 the
   * source uses an exponential, which is not modelled (`None`).
   */
  function Qoverload(nVis: int): (r: Option<real>)
    ensures r.Some? <==> nVis <= 3
    ensures r.Some? ==> r.value == 0.0
  {
    if nVis <= 3 then Some(0.0) else None
  }

  /** The four modes, from least to most capacity. */
  datatype Mode = Recovery | Turtle | Cruise | Unicorn

  function ModeName(m: Mode): string
  {
    match m
    case Recovery => "Recovery"
    case Turtle => "Turtle"
    case Cruise => "Cruise"
    case Unicorn => "Unicorn"
  }

  function Rank(m: Mode): nat
  {
    match m
    case Recovery => 0
    case Turtle => 1
    case Cruise => 2
    case Unicorn => 3
  }

  /** get_mode_band(etaH) */
  function GetModeBand(etaH: real): (m: Mode)
    ensures m == Recovery <==> etaH < 0.30
    ensures m == Turtle <==> 0.30 <= etaH < 0.60
    ensures m == Cruise <==> 0.60 <= etaH < 0.85
    ensures m == Unicorn <==> 0.85 <= etaH
  {
    if etaH < 0.30 then Recovery
    else if etaH < 0.60 then Turtle
    else if etaH < 0.85 then Cruise
    else Unicorn
  }

  /** More capacity never gives a lower band. */
  lemma BandMonotone(a: real, b: real)
    requires a <= b
    ensures Rank(GetModeBand(a)) <= Rank(GetModeBand(b))
  {
  }

  /** deep_fix is False, "maybe" or True. */
  datatype DeepFix = NoFix | MaybeFix | DoFix

  datatype Controls = Controls(sprints: int, batchSize: int, nVis: int, swapTime: int, deepFix: DeepFix)

  /** get_mode_controls(mode, availability_hours): availability is not consulted. */
  function GetModeControls(mode: string, availabilityHours: real): (r: Option<Controls>)
    ensures r.Some? <==> mode in {"Recovery", "Turtle", "Cruise", "Unicorn"}
  {
    if mode == "Recovery" then Some(Controls(2, 5, 2, 10, NoFix))
    else if mode == "Turtle" then Some(Controls(4, 6, 3, 12, MaybeFix))
    else if mode == "Cruise" then Some(Controls(5, 8, 5, 15, DoFix))
    else if mode == "Unicorn" then Some(Controls(5, 8, 7, 16, DoFix))
    else None
  }

  /** The controls of every band exist and do not depend on the hours available. */
  lemma {:induction false} ControlsForEveryBand(etaH: real, h1: real, h2: real)
    ensures GetModeControls(ModeName(GetModeBand(etaH)), h1).Some?
    ensures GetModeControls(ModeName(GetModeBand(etaH)), h1) == GetModeControls(ModeName(GetModeBand(etaH)), h2)
  {
  }

  function ControlsOf(m: Mode): Controls
  {
    GetModeControls(ModeName(m), 0.0).value
  }

  /** A higher band never has fewer sprints, a smaller batch, fewer visible items or a shorter swap time. */
  lemma {:induction false} ControlsMonotone(a: Mode, b: Mode)
    requires Rank(a) <= Rank(b)
    ensures ControlsOf(a).sprints <= ControlsOf(b).sprints
    ensures ControlsOf(a).batchSize <= ControlsOf(b).batchSize
    ensures ControlsOf(a).nVis <= ControlsOf(b).nVis
    ensures ControlsOf(a).swapTime <= ControlsOf(b).swapTime
  {
  }

  /** Recovery and Turtle show at most 3 items, so their overload term is 0. */
  lemma {:induction false} LowBandsNoOverload(m: Mode)
    requires m == Recovery || m == Turtle
    ensures Qoverload(ControlsOf(m).nVis) == Some(0.0)
  {
  }

  /**
   * In the FMCA loop Turtle's swap time of 12 collides with the accelerator
   * minute, so its charts end at minute 13; every other band ends at its
   * swap time.
   */
  lemma {:induction false} BandTerminalMinutes()
    ensures Fmca.TerminalMinute(ControlsOf(Recovery).swapTime) == 10
    ensures Fmca.TerminalMinute(ControlsOf(Turtle).swapTime) == 13
    ensures Fmca.TerminalMinute(ControlsOf(Cruise).swapTime) == 15
    ensures Fmca.TerminalMinute(ControlsOf(Unicorn).swapTime) == 16
  {
  }
}
