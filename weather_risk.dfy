/**
 * The rule-based risk scorer (`WeatherRiskAnalyzer` in disaster_response.py).
 *
 * An observation is scored as the sum of five terms (a base, a weight for the
 * condition label, a banded temperature term, a capped wind term and a capped
 * rain term), clamped from above at 0.95.
 */
module WeatherRisk {
  import opened Wrappers

  /** One entry of the observation's `weather` list; only its `main` label is read. */
  datatype ConditionEntry = ConditionEntry(main: Option<string>)

  /**
   * The parts of a weather observation that the scorer reads. A field is `None`
   * when the service left it out, or left out the block that holds it
   * (`main.temp`, `wind.speed`, `rain.1h`): the scorer treats both the same way.
   */
  datatype Observation = Observation(
    weather: Option<seq<ConditionEntry>>,
    temp: Option<real>,
    windSpeed: Option<real>,
    rain1h: Option<real>)

  const BaseRisk: real := 0.1
  /** Weight of a label the table does not know. */
  const DefaultWeight: real := 0.1
  /** The condition assumed when the observation names none. */
  const DefaultCondition: string := "Clear"
  const ScoreCap: real := 0.95
  const WindCap: real := 0.4
  const RainCap: real := 0.3

  /** The fixed condition weight table of the analyzer. */
  const Weights: map<string, real> := map[
    "Thunderstorm" := 0.9,
    "Tornado" := 1.0,
    "Hurricane" := 1.0,
    "Tropical Storm" := 0.9,
    "Rain" := 0.6,
    "Snow" := 0.7,
    "Extreme" := 0.8,
    "Drizzle" := 0.3,
    "Clouds" := 0.2,
    "Clear" := 0.1
  ]

  function Min(a: real, b: real): (m: real)
    ensures m <= a && m <= b && (m == a || m == b)
  {
    if a <= b then a else b
  }

  /** The weight of a condition label: every weight lies in [0.1, 1.0], and a label
      the table does not know weighs exactly what "Clear" weighs. */
  function ConditionWeight(cond: string): (w: real)
    ensures DefaultWeight <= w <= 1.0
    ensures cond !in Weights ==> w == Weights[DefaultCondition]
  {
    if cond in Weights then Weights[cond] else DefaultWeight
  }

  /**
   * Whether the observation can be scored at all: a `weather` list that is
   * present but empty makes the lookup of its first entry raise.
   */
  predicate Scorable(obs: Observation) {
    obs.weather != Some([])
  }

  /** The primary condition label, or `None` when looking it up raises. */
  function MainCondition(obs: Observation): (c: Option<string>)
    ensures c.Some? <==> Scorable(obs)
    ensures obs.weather.None? ==> c == Some(DefaultCondition)
    ensures obs.weather.Some? && |obs.weather.value| > 0 && obs.weather.value[0].main.None? ==>
      c == Some(DefaultCondition)
    ensures c.Some? && obs.weather.Some? && obs.weather.value[0].main.Some? ==> c.value == obs.weather.value[0].main.value
  {
    match obs.weather
    case None => Some(DefaultCondition)
    case Some(entries) =>
      if |entries| == 0 then None else Some(entries[0].main.GetOr(DefaultCondition))
  }

  /** Temperature term: three bands, each boundary falling in the lower band. */
  function TempRisk(t: real): (r: real)
    ensures r == 0.3 <==> (t > 35.0 || t < -10.0)
    ensures r == 0.2 <==> ((30.0 < t <= 35.0) || (-10.0 <= t < 0.0))
    ensures r == 0.0 <==> (0.0 <= t <= 30.0)
  {
    if t > 35.0 || t < -10.0 then 0.3
    else if t > 30.0 || t < 0.0 then 0.2
    else 0.0
  }

  /** Wind term: proportional to the speed up to 40, then fixed at the cap. */
  function WindRisk(speed: real): (r: real)
    ensures r <= WindCap
    ensures speed <= 40.0 ==> r == speed / 100.0
    ensures speed >= 40.0 ==> r == WindCap
    ensures speed >= 0.0 ==> r >= 0.0
  {
    Min(speed / 100.0, WindCap)
  }

  /** Rain term: proportional to the last hour's volume up to 15, then fixed at the cap. */
  function RainRisk(volume: real): (r: real)
    ensures r <= RainCap
    ensures volume <= 15.0 ==> r == volume / 50.0
    ensures volume >= 15.0 ==> r == RainCap
    ensures volume >= 0.0 ==> r >= 0.0
  {
    Min(volume / 50.0, RainCap)
  }

  /** The observation's values after the scorer's defaults are applied. */
  function Temp(obs: Observation): real { obs.temp.GetOr(0.0) }
  function Wind(obs: Observation): real { obs.windSpeed.GetOr(0.0) }
  function Rain(obs: Observation): real { obs.rain1h.GetOr(0.0) }

  /** The sum of the five terms before the clamp at 0.95. */
  function RawSum(obs: Observation): real
    requires Scorable(obs)
  {
    BaseRisk + ConditionWeight(MainCondition(obs).value) + TempRisk(Temp(obs))
    + WindRisk(Wind(obs)) + RainRisk(Rain(obs))
  }

  /**
   * `calculate_risk`: `None` exactly when the scorer raises (a present but empty
   * `weather` list); otherwise a score never above 0.95, and at least 0.2 when
   * wind and rain are not negative.
   */
  function CalculateRisk(obs: Observation): (r: Option<real>)
    ensures r.Some? <==> Scorable(obs)
    ensures r.Some? ==> r.value <= ScoreCap
    ensures r.Some? && Wind(obs) >= 0.0 && Rain(obs) >= 0.0 ==> r.value >= 0.2
  {
    if Scorable(obs) then Some(Min(ScoreCap, RawSum(obs))) else None
  }

  /** The same observation with its condition list replaced by one entry of the given label. */
  function WithLabel(obs: Observation, cond: string): Observation {
    obs.(weather := Some([ConditionEntry(Some(cond))]))
  }

  /** A missing condition label, or a missing `weather` list, scores as "Clear". */
  lemma MissingConditionIsClear(obs: Observation)
    requires obs.weather.None? || (obs.weather.Some? && |obs.weather.value| > 0 && obs.weather.value[0].main.None?)
    ensures CalculateRisk(obs) == CalculateRisk(WithLabel(obs, DefaultCondition))
  {
  }

  /** A label the table does not know scores exactly as "Clear". */
  lemma UnknownConditionIsClear(obs: Observation, cond: string)
    requires cond !in Weights
    ensures CalculateRisk(WithLabel(obs, cond)) == CalculateRisk(WithLabel(obs, DefaultCondition))
  {
  }

  /** Only the first entry of the condition list is read. */
  lemma OnlyFirstConditionCounts(obs: Observation, first: ConditionEntry, rest: seq<ConditionEntry>)
    ensures CalculateRisk(obs.(weather := Some([first] + rest))) == CalculateRisk(obs.(weather := Some([first])))
  {
  }

  /** An observation with none of the fields scores exactly 0.2. */
  lemma EmptyObservationScore()
    ensures CalculateRisk(Observation(None, None, None, None)) == Some(0.2)
  {
  }

  /** An empty condition list is the one observation the scorer cannot score. */
  lemma EmptyConditionListFails(obs: Observation)
    ensures CalculateRisk(obs.(weather := Some([]))) == None
  {
  }

  /** Holding the other fields fixed, the score never decreases as the wind speed grows. */
  lemma WindMonotone(obs: Observation, s1: real, s2: real)
    requires s1 <= s2
    ensures CalculateRisk(obs.(windSpeed := Some(s1))).Some? == CalculateRisk(obs.(windSpeed := Some(s2))).Some?
    ensures CalculateRisk(obs.(windSpeed := Some(s1))).Some? ==>
      CalculateRisk(obs.(windSpeed := Some(s1))).value <= CalculateRisk(obs.(windSpeed := Some(s2))).value
  {
  }

  /** Holding the other fields fixed, the score never decreases as the rain volume grows. */
  lemma RainMonotone(obs: Observation, v1: real, v2: real)
    requires v1 <= v2
    ensures CalculateRisk(obs.(rain1h := Some(v1))).Some? == CalculateRisk(obs.(rain1h := Some(v2))).Some?
    ensures CalculateRisk(obs.(rain1h := Some(v1))).Some? ==>
      CalculateRisk(obs.(rain1h := Some(v1))).value <= CalculateRisk(obs.(rain1h := Some(v2))).value
  {
  }

  /** Beyond 40 the wind speed no longer changes the score. */
  lemma WindSaturates(obs: Observation, s: real)
    requires s >= 40.0
    ensures CalculateRisk(obs.(windSpeed := Some(s))) == CalculateRisk(obs.(windSpeed := Some(40.0)))
  {
  }

  /** Beyond 15 the rain volume no longer changes the score. */
  lemma RainSaturates(obs: Observation, v: real)
    requires v >= 15.0
    ensures CalculateRisk(obs.(rain1h := Some(v))) == CalculateRisk(obs.(rain1h := Some(15.0)))
  {
  }

  /** An absent wind speed or rain volume scores as zero. */
  lemma MissingWindAndRainAreZero(obs: Observation)
    ensures CalculateRisk(obs.(windSpeed := None)) == CalculateRisk(obs.(windSpeed := Some(0.0)))
    ensures CalculateRisk(obs.(rain1h := None)) == CalculateRisk(obs.(rain1h := Some(0.0)))
  {
  }

  /** Tornado, 40 degrees, wind 200, rain 100: the sum 2.1 is clamped to 0.95. */
  lemma ExtremeObservationIsCapped()
    ensures RawSum(Observation(Some([ConditionEntry(Some("Tornado"))]), Some(40.0), Some(200.0), Some(100.0))) == 2.1
    ensures CalculateRisk(Observation(Some([ConditionEntry(Some("Tornado"))]), Some(40.0), Some(200.0), Some(100.0)))
         == Some(0.95)
  {
  }

  /** Rain, 32 degrees, wind 10, rain 5: the sum 1.1 is clamped to 0.95. */
  lemma ModerateObservationIsCapped()
    ensures RawSum(Observation(Some([ConditionEntry(Some("Rain"))]), Some(32.0), Some(10.0), Some(5.0))) == 1.1
    ensures CalculateRisk(Observation(Some([ConditionEntry(Some("Rain"))]), Some(32.0), Some(10.0), Some(5.0)))
         == Some(0.95)
  {
  }

  /** Clear, 20 degrees, wind 5, no rain: 0.25, below the cap. */
  lemma MildObservationIsNotCapped()
    ensures CalculateRisk(Observation(Some([ConditionEntry(Some("Clear"))]), Some(20.0), Some(5.0), Some(0.0)))
         == Some(0.25)
  {
  }

  /**
   * With only a wind speed of at most 40, the score is 0.2 plus a hundredth of
   * the speed, so it falls without bound as the speed goes down.
   */
  lemma WindOnlyScore(w: real)
    requires w <= 40.0
    ensures CalculateRisk(Observation(None, None, Some(w), None)) == Some(0.2 + w / 100.0)
  {
  }

  /** A sufficiently negative wind speed gives a negative score: -1000 gives -9.8. */
  lemma NegativeWindScoresBelowZero()
    ensures CalculateRisk(Observation(None, None, Some(-1000.0), None)) == Some(-9.8)
  {
  }
}
