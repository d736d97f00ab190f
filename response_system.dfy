/**
 * The location aggregator (`DisasterResponseSystem` in disaster_response.py):
 * the score-to-colour classifier, the record built from one successful fetch,
 * and the refresh that rebuilds the snapshot map from all fetch outcomes.
 *
 * The network request of each fetch is not performed here: the outcome of the
 * request for each monitored location is given to the refresh as input.
 */
module ResponseSystem {
  import opened Wrappers
  import opened WeatherRisk

  /** The marker colour of a risk score. */
  datatype Color = Green | Orange | Red

  /** `get_risk_color`: green below 0.3, orange from 0.3 up to 0.7, red from 0.7 on. */
  function RiskColor(score: real): (c: Color)
    ensures c == Green <==> score < 0.3
    ensures c == Orange <==> 0.3 <= score < 0.7
    ensures c == Red <==> 0.7 <= score
  {
    if score < 0.3 then Green
    else if score < 0.7 then Orange
    else Red
  }

  /** Severity order of the colours. */
  function Severity(c: Color): nat {
    match c
    case Green => 0
    case Orange => 1
    case Red => 2
  }

  /** A higher score never gets a less severe colour. */
  lemma RiskColorMonotone(a: real, b: real)
    requires a <= b
    ensures Severity(RiskColor(a)) <= Severity(RiskColor(b))
  {
  }

  /** A monitored location (configuration, never changed). */
  datatype Location = Location(name: string, lat: real, lon: real)

  /** The capture time of a fetch, an ISO-8601 string supplied by the clock. */
  type Timestamp = string

  /** The record kept for one location after a successful fetch. */
  datatype Snapshot = Snapshot(
    location: string,
    latitude: real,
    longitude: real,
    weatherData: Observation,
    riskScore: real,
    timestamp: Timestamp)

  /** What the weather request for one location produced. */
  datatype Response =
    | HttpResponse(status: int, body: Observation)  // a reply with its decoded body
    | Raised                                        // the request or the decoding raised

  /** The request's result together with the clock reading taken when the record is built. */
  datatype Outcome = Outcome(response: Response, at: Timestamp)

  /**
   * `fetch_weather_data` without the request: a record exactly when the reply has
   * status 200 and its observation can be scored; the record copies the
   * location's name and coordinates, keeps the observation, and carries its score.
   */
  function FetchWeatherData(loc: Location, outcome: Outcome): (r: Option<Snapshot>)
    ensures r.Some? <==>
      outcome.response.HttpResponse? && outcome.response.status == 200 && Scorable(outcome.response.body)
    ensures r.Some? ==>
      && r.value.location == loc.name
      && r.value.latitude == loc.lat
      && r.value.longitude == loc.lon
      && r.value.weatherData == outcome.response.body
      && CalculateRisk(outcome.response.body) == Some(r.value.riskScore)
      && r.value.riskScore <= ScoreCap
      && r.value.timestamp == outcome.at
  {
    match outcome.response
    case Raised => None
    case HttpResponse(status, body) =>
      if status != 200 then None
      else
        match CalculateRisk(body)
        case None => None
        case Some(score) => Some(Snapshot(loc.name, loc.lat, loc.lon, body, score, outcome.at))
  }

  /** Whether the fetch for the i-th location produced a record. */
  predicate SucceededAt(locs: seq<Location>, outcomes: seq<Outcome>, i: int)
    requires |locs| == |outcomes|
  {
    0 <= i < |locs| && FetchWeatherData(locs[i], outcomes[i]).Some?
  }

  /** The records of the successful fetches, in location order. */
  function Successful(locs: seq<Location>, outcomes: seq<Outcome>): (rs: seq<Snapshot>)
    requires |locs| == |outcomes|
    ensures |rs| <= |locs|
  {
    if |locs| == 0 then []
    else
      var n := |locs| - 1;
      var earlier := Successful(locs[..n], outcomes[..n]);
      match FetchWeatherData(locs[n], outcomes[n])
      case None => earlier
      case Some(s) => earlier + [s]
  }

  /** The indices whose fetch produced no record. */
  function FailedIndices(locs: seq<Location>, outcomes: seq<Outcome>): set<int>
    requires |locs| == |outcomes|
  {
    set i | 0 <= i < |locs| && !SucceededAt(locs, outcomes, i)
  }

  /** Filtering commutes with splitting the location list: the records keep location order. */
  lemma {:induction false} SuccessfulAppend(a: seq<Location>, oa: seq<Outcome>, b: seq<Location>, ob: seq<Outcome>)
    requires |a| == |oa| && |b| == |ob|
    ensures Successful(a + b, oa + ob) == Successful(a, oa) + Successful(b, ob)
  {
    if |b| == 0 {
      assert a + b == a && oa + ob == oa;
    } else {
      var n := |b| - 1;
      assert (a + b)[..|a| + n] == a + b[..n];
      assert (oa + ob)[..|oa| + n] == oa + ob[..n];
      SuccessfulAppend(a, oa, b[..n], ob[..n]);
    }
  }

  /** A record is returned exactly when some location's fetch produced it. */
  lemma {:induction false} SuccessfulMembers(locs: seq<Location>, outcomes: seq<Outcome>, s: Snapshot)
    requires |locs| == |outcomes|
    ensures s in Successful(locs, outcomes) <==>
      exists i :: 0 <= i < |locs| && FetchWeatherData(locs[i], outcomes[i]) == Some(s)
  {
    if |locs| > 0 {
      var n := |locs| - 1;
      SuccessfulMembers(locs[..n], outcomes[..n], s);
      if s in Successful(locs[..n], outcomes[..n]) {
        var i :| 0 <= i < n && FetchWeatherData(locs[..n][i], outcomes[..n][i]) == Some(s);
        assert FetchWeatherData(locs[i], outcomes[i]) == Some(s);
      }
      if exists i :: 0 <= i < |locs| && FetchWeatherData(locs[i], outcomes[i]) == Some(s) {
        var i :| 0 <= i < |locs| && FetchWeatherData(locs[i], outcomes[i]) == Some(s);
        if i < n {
          assert FetchWeatherData(locs[..n][i], outcomes[..n][i]) == Some(s);
        }
      }
    }
  }

  /** With K of N fetches failing, exactly N - K records are returned. */
  lemma {:induction false} SuccessfulCount(locs: seq<Location>, outcomes: seq<Outcome>)
    requires |locs| == |outcomes|
    ensures |Successful(locs, outcomes)| == |locs| - |FailedIndices(locs, outcomes)|
  {
    if |locs| > 0 {
      var n := |locs| - 1;
      SuccessfulCount(locs[..n], outcomes[..n]);
      var before := FailedIndices(locs[..n], outcomes[..n]);
      var after := FailedIndices(locs, outcomes);
      if SucceededAt(locs, outcomes, n) {
        assert after == before;
      } else {
        assert after == before + {n};
      }
    }
  }

  /** With no locations, or with every fetch failing, no record is returned. */
  lemma {:induction false} AllFailedGivesNothing(locs: seq<Location>, outcomes: seq<Outcome>)
    requires |locs| == |outcomes|
    requires forall i :: 0 <= i < |locs| ==> !SucceededAt(locs, outcomes, i)
    ensures Successful(locs, outcomes) == []
  {
    if |locs| > 0 {
      var n := |locs| - 1;
      assert !SucceededAt(locs, outcomes, n);
      forall i | 0 <= i < n
        ensures !SucceededAt(locs[..n], outcomes[..n], i)
      {
        assert !SucceededAt(locs, outcomes, i);
      }
      AllFailedGivesNothing(locs[..n], outcomes[..n]);
    }
  }

  /**
   * The dict built from the records, keyed by location name; a later record with
   * the same name replaces an earlier one. Its keys are exactly the records'
   * names, and each key maps to a record of that name.
   */
  function ToMap(rs: seq<Snapshot>): (m: map<string, Snapshot>)
    ensures m.Keys == set s | s in rs :: s.location
    ensures forall k :: k in m ==> m[k] in rs && m[k].location == k
  {
    if |rs| == 0 then map[]
    else
      var n := |rs| - 1;
      ToMap(rs[..n])[rs[n].location := rs[n]]
  }

  /** No two records carry the same location name. */
  predicate DistinctNames(rs: seq<Snapshot>) {
    forall i, j :: 0 <= i < j < |rs| ==> rs[i].location != rs[j].location
  }

  /** No two monitored locations carry the same name. */
  predicate DistinctLocations(locs: seq<Location>) {
    forall i, j :: 0 <= i < j < |locs| ==> locs[i].name != locs[j].name
  }

  /** With distinct names every record is stored under its own name (from ToMap's contract). */
  lemma ToMapHoldsEachRecord(rs: seq<Snapshot>)
    requires DistinctNames(rs)
    ensures forall i :: 0 <= i < |rs| ==> ToMap(rs)[rs[i].location] == rs[i]
  {
  }

  /** Every name among the returned records is the name of one of the locations. */
  lemma {:induction false} SuccessfulNamesFromLocations(locs: seq<Location>, outcomes: seq<Outcome>, s: Snapshot)
    requires |locs| == |outcomes|
    requires s in Successful(locs, outcomes)
    ensures exists i :: 0 <= i < |locs| && locs[i].name == s.location
  {
    SuccessfulMembers(locs, outcomes, s);
    var i :| 0 <= i < |locs| && FetchWeatherData(locs[i], outcomes[i]) == Some(s);
    assert locs[i].name == s.location;
  }

  /** Distinct location names give records with distinct names. */
  lemma {:induction false} SuccessfulDistinct(locs: seq<Location>, outcomes: seq<Outcome>)
    requires |locs| == |outcomes|
    requires DistinctLocations(locs)
    ensures DistinctNames(Successful(locs, outcomes))
  {
    if |locs| > 0 {
      var n := |locs| - 1;
      assert DistinctLocations(locs[..n]);
      SuccessfulDistinct(locs[..n], outcomes[..n]);
      var earlier := Successful(locs[..n], outcomes[..n]);
      match FetchWeatherData(locs[n], outcomes[n])
      case None =>
      case Some(s) =>
        forall i | 0 <= i < |earlier|
          ensures earlier[i].location != s.location
        {
          SuccessfulNamesFromLocations(locs[..n], outcomes[..n], earlier[i]);
          var j :| 0 <= j < n && locs[..n][j].name == earlier[i].location;
          assert locs[j].name == earlier[i].location;
        }
    }
  }

  /** The aggregator: the monitored locations and the snapshot map of the last refresh. */
  class DisasterResponseSystem {
    const monitoredLocations: seq<Location>
    var weatherData: map<string, Snapshot>

    /** Starts with no snapshots. */
    constructor (locations: seq<Location>)
      ensures monitoredLocations == locations
      ensures weatherData == map[]
    {
      monitoredLocations := locations;
      weatherData := map[];
    }

    /**
     * `update_all_locations`, given the outcome of each location's request in
     * location order: returns the records of the successful fetches in that
     * order and replaces the stored map wholesale by the map from their names
     * to them, so nothing of the previous map survives.
     */
    method UpdateAllLocations(outcomes: seq<Outcome>) returns (valid: seq<Snapshot>)
      requires |outcomes| == |monitoredLocations|
      modifies this
      ensures valid == Successful(monitoredLocations, outcomes)
      ensures weatherData == ToMap(valid)
    {
      var locs := monitoredLocations;
      valid := [];
      var i := 0;
      while i < |locs|
        invariant 0 <= i <= |locs|
        invariant valid == Successful(locs[..i], outcomes[..i])
      {
        assert locs[..i + 1][..i] == locs[..i] && outcomes[..i + 1][..i] == outcomes[..i];
        var result := FetchWeatherData(locs[i], outcomes[i]);
        if result.Some? {
          valid := valid + [result.value];
        }
        i := i + 1;
      }
      assert locs[..i] == locs && outcomes[..i] == outcomes;

      var rebuilt: map<string, Snapshot> := map[];
      var k := 0;
      while k < |valid|
        invariant 0 <= k <= |valid|
        invariant rebuilt == ToMap(valid[..k])
      {
        assert valid[..k + 1][..k] == valid[..k];
        rebuilt := rebuilt[valid[k].location := valid[k]];
        k := k + 1;
      }
      assert valid[..k] == valid;
      weatherData := rebuilt;
    }
  }

  /**
   * After a refresh over locations with distinct names: the stored keys are
   * exactly the names of the returned records and each name maps to its record.
   */
  lemma RefreshStoresEachRecord(locs: seq<Location>, outcomes: seq<Outcome>)
    requires |locs| == |outcomes|
    requires DistinctLocations(locs)
    ensures ToMap(Successful(locs, outcomes)).Keys == set s | s in Successful(locs, outcomes) :: s.location
    ensures forall s :: s in Successful(locs, outcomes) ==> ToMap(Successful(locs, outcomes))[s.location] == s
  {
    var rs := Successful(locs, outcomes);
    SuccessfulDistinct(locs, outcomes);
    ToMapHoldsEachRecord(rs);
    forall s | s in rs
      ensures ToMap(rs)[s.location] == s
    {
      var i :| 0 <= i < |rs| && rs[i] == s;
    }
  }
}
