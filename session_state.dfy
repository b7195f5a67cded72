// Session lookup tables: the mental-energy and social-context scores that
// feed the itinerary generator's capacity bias, with their fallbacks, and
// the one-time defaulting of the session fields at load.

module SessionState {
  import opened Common
  import EngineGenerate

  /** The JavaScript values a session field or an argument can hold. */
  datatype JsValue =
    | Undefined
    | Null
    | Bool(b: bool)
    | Number(n: real)
    | Text(s: string)

  /** JavaScript falsiness. */
  predicate Falsy(v: JsValue)
  {
    v.Undefined? || v.Null? || v == Bool(false) || v == Number(0.0) || v == Text("")
  }

  /**
   * `Number(v)` when it is finite, `None` when it is NaN. Strings are read
   * as unsigned decimal integers; the empty string is 0.
   */
  function ToNumber(v: JsValue): (r: Option<real>)
    ensures v.Number? ==> r == Some(v.n)
    ensures v.Undefined? ==> r == None
    ensures v.Null? ==> r == Some(0.0)
  {
    match v
    case Undefined => None
    case Null => Some(0.0)
    case Bool(b) => Some(if b then 1.0 else 0.0)
    case Number(n) => Some(n)
    case Text(s) =>
      if s == "" then Some(0.0)
      else if AllDigits(s) then Some(ParseDigits(s) as real)
      else None
  }

  // ---------------------------------------------------------------- energy

  /** ENERGY_SCORE_MAP: levels 1..5; `None` for any other key. */
  function EnergyTable(n: real): (r: Option<real>)
    ensures r.Some? <==> n == 1.0 || n == 2.0 || n == 3.0 || n == 4.0 || n == 5.0
  {
    if n == 1.0 then Some(0.15)
    else if n == 2.0 then Some(0.4)
    else if n == 3.0 then Some(0.7)
    else if n == 4.0 then Some(0.95)
    else if n == 5.0 then Some(1.0)
    else None
  }

  /** The level-3 score, used whenever the level is unusable. */
  const EnergyFallback: real := 0.7

  /** getMentalEnergyScore(level) */
  function EnergyScore(level: JsValue): (r: real)
    ensures 0.15 <= r <= 1.0
    ensures ToNumber(level).Some? && EnergyTable(ToNumber(level).value).Some? ==>
      r == EnergyTable(ToNumber(level).value).value
    ensures ToNumber(level).None? || EnergyTable(ToNumber(level).value).None? ==>
      r == EnergyFallback
  {
    var numeric := ToNumber(level);
    if numeric.Some? then
      var hit := EnergyTable(numeric.value);
      if hit.Some? then hit.value else EnergyFallback
    else EnergyFallback
  }

  /** The five levels map to 0.15, 0.4, 0.7, 0.95 and 1.0. */
  lemma EnergyLevels()
    ensures EnergyScore(Number(1.0)) == 0.15
    ensures EnergyScore(Number(2.0)) == 0.4
    ensures EnergyScore(Number(3.0)) == 0.7
    ensures EnergyScore(Number(4.0)) == 0.95
    ensures EnergyScore(Number(5.0)) == 1.0
    ensures EnergyScore(Text("4")) == 0.95
  {
    assert ParseDigits("4") == 4 by {
      assert "4"[..0] == "";
    }
  }

  /** The fallback is the level-3 value. */
  lemma FallbackIsLevelThree(level: JsValue)
    requires ToNumber(level).None? || EnergyTable(ToNumber(level).value).None?
    ensures EnergyScore(level) == EnergyScore(Number(3.0))
  {
  }

  /** Over the five levels, more energy never gives a lower score. */
  lemma EnergyMonotone(a: int, b: int)
    requires 1 <= a <= b <= 5
    ensures EnergyScore(Number(a as real)) <= EnergyScore(Number(b as real))
  {
  }

  /**
   * Fed to the generator, a mental-energy score always gives a capacity
   * bias in [0.9025, 1.15]: energy never pushes quotas below 90% of their base.
   */
  lemma EnergyBiasRange(level: JsValue)
    ensures 0.9025 <= EngineGenerate.CapacityBias(Some(EnergyScore(level))) <= 1.15
  {
    var s := EnergyScore(level);
    assert 0.9025 <= 0.85 + s * 0.35;
    EngineGenerate.CapacityBiasMonotone(0.15, s);
  }

  // ---------------------------------------------------------------- social context

  datatype SocialOption = SocialOption(value: string, labelText: string, score: real)

  /** SOCIAL_CONTEXT_OPTIONS, in their listed order. */
  const Options: seq<SocialOption> := [
    SocialOption("home_solo", "Charting at home", 0.0),
    SocialOption("clinic_open_door", "Charting in exam room with door open", 0.7),
    SocialOption("clinic_workroom", "Charting in workroom", 0.5),
    SocialOption("cafe", "Charting in a cafe", 0.4),
    SocialOption("zoom_buddy", "Charting with a zoom buddy", 1.0)
  ]

  /** SOCIAL_SCORE_MAP */
  const SocialScores: map<string, real> := map[
    "home_solo" := 0.0,
    "clinic_open_door" := 0.7,
    "clinic_workroom" := 0.5,
    "cafe" := 0.4,
    "zoom_buddy" := 1.0
  ]

  /** Index of the first option whose value is `loc`, or |from| past the end. */
  function FindOption(loc: JsValue, from: nat): (i: nat)
    requires from <= |Options|
    ensures from <= i <= |Options|
    ensures forall j :: from <= j < i ==> Text(Options[j].value) != loc
    ensures i < |Options| ==> Text(Options[i].value) == loc
    decreases |Options| - from
  {
    if from == |Options| then from
    else if Text(Options[from].value) == loc then from
    else FindOption(loc, from + 1)
  }

  /** getSocialContextOption(loc): the matching option, else home_solo. */
  function SocialContextOption(loc: JsValue): (o: SocialOption)
    ensures o in Options
    ensures (exists j :: 0 <= j < |Options| && Text(Options[j].value) == loc) ==> Text(o.value) == loc
    ensures (forall j :: 0 <= j < |Options| ==> Text(Options[j].value) != loc) ==> o == Options[0]
  {
    var i := FindOption(loc, 0);
    if i < |Options| then Options[i] else Options[0]
  }

  /** getSocialContextScore(loc) */
  function SocialContextScore(loc: JsValue): (r: real)
    ensures 0.0 <= r <= 1.0
    ensures loc.Text? && loc.s in SocialScores ==> r == SocialScores[loc.s]
    ensures !(loc.Text? && loc.s in SocialScores) ==> r == 0.0
  {
    if loc.Text? && loc.s in SocialScores then SocialScores[loc.s]
    else SocialContextOption(loc).score
  }

  /** The two tables agree: each option's score is the score map's value for it. */
  lemma {:induction false} ScoreTablesAgree(j: nat)
    requires j < |Options|
    ensures Options[j].value in SocialScores
    ensures SocialContextScore(Text(Options[j].value)) == Options[j].score
    ensures SocialContextOption(Text(Options[j].value)) == Options[j]
  {
    var o := SocialContextOption(Text(Options[j].value));
    var k :| 0 <= k < |Options| && o == Options[k];
    assert Options[k].value == Options[j].value;
  }

  // ---------------------------------------------------------------- load defaults

  datatype Session = Session(energyLevel: JsValue, contextLocation: JsValue)

  /** The defaulting done once at load: level 3 and home_solo when falsy. */
  function LoadDefaults(s: Session): (r: Session)
    ensures !Falsy(r.energyLevel) && !Falsy(r.contextLocation)
    ensures Falsy(s.energyLevel) ==> r.energyLevel == Number(3.0)
    ensures !Falsy(s.energyLevel) ==> r.energyLevel == s.energyLevel
    ensures Falsy(s.contextLocation) ==> r.contextLocation == Text(Options[0].value)
    ensures !Falsy(s.contextLocation) ==> r.contextLocation == s.contextLocation
  {
    Session(
      if Falsy(s.energyLevel) then Number(3.0) else s.energyLevel,
      if Falsy(s.contextLocation) then Text(Options[0].value) else s.contextLocation)
  }

  /**
   * `getMentalEnergyScore()` with no argument reads the session: the stored
   * level's score, or the level-3 score when the level is nullish.
   */
  function SessionEnergyScore(s: Session): (r: real)
    ensures !s.energyLevel.Undefined? && !s.energyLevel.Null? ==> r == EnergyScore(s.energyLevel)
    ensures s.energyLevel.Undefined? || s.energyLevel.Null? ==> r == 0.7
    ensures 0.15 <= r <= 1.0
  {
    EnergyScore(if s.energyLevel.Undefined? || s.energyLevel.Null? then Number(EnergyFallback) else s.energyLevel)
  }

  /**
   * `getSocialContextScore()` with no argument reads the session: the stored
   * location's score, or home_solo's 0 when the location is falsy.
   */
  function SessionSocialScore(s: Session): (r: real)
    ensures !Falsy(s.contextLocation) ==> r == SocialContextScore(s.contextLocation)
    ensures Falsy(s.contextLocation) ==> r == 0.0
    ensures 0.0 <= r <= 1.0
  {
    SocialContextScore(if Falsy(s.contextLocation) then Text(Options[0].value) else s.contextLocation)
  }

  /** A freshly loaded empty session scores 0.7 energy and 0 social. */
  lemma EmptySessionScores()
    ensures SessionEnergyScore(LoadDefaults(Session(Undefined, Undefined))) == 0.7
    ensures SessionSocialScore(LoadDefaults(Session(Undefined, Undefined))) == 0.0
  {
  }
}
