# Disaster response risk scoring, modelled in Dafny

This project models the core of `disaster_response.py`, a dashboard that polls a
weather service for a fixed list of cities, scores each observation for risk and
colours a map marker by that score.

- `wrappers.dfy` — `Option`, used for fields the service may leave out and for
  fetches that produce no record.
- `weather_risk.dfy` (module `WeatherRisk`) — the `WeatherRiskAnalyzer`: the
  condition weight table and `calculate_risk`. The score is a base of 0.1, plus
  the condition's table weight (0.1 for an unknown label, and "Clear" when no
  label is given), plus a banded temperature term, plus `min(speed/100, 0.4)`,
  plus `min(rain/50, 0.3)`, clamped from above at 0.95. An observation whose
  `weather` list is present but empty makes the source raise an `IndexError`.
  `CalculateRisk` returns `None` for it.
- `response_system.dfy` (module `ResponseSystem`) — the `DisasterResponseSystem`:
  `get_risk_color`, and the record that `fetch_weather_data` builds from a
  location and a reply. It also holds `update_all_locations`, a class method
  that filters the per-location results in location order and replaces the
  `weatherData` map wholesale. Each location's request is not performed: its
  outcome is an input. That outcome is a reply with a status and a decoded
  observation, or an exception, together with the clock reading the record
  would carry.

The score is at most 0.95 for every input. It is at least 0.2 only when wind
speed and rain volume are not negative. A sufficiently negative wind speed gives
a negative score: -1000 gives -9.8 (`NegativeWindScoresBelowZero`,
`WindOnlyScore`). The model assumes nothing about the signs the weather service
reports, so these bounds are stated for all inputs.

## Model

| member | source | states |
|---|---|---|
| `WeatherRisk.ConditionWeight` | disaster_response.py:16-35 | every table weight and the default lie in [0.1, 1.0]; an unknown label weighs exactly what "Clear" weighs |
| `WeatherRisk.MainCondition` | disaster_response.py:34 | the label lookup fails exactly when the `weather` list is present but empty; a missing list or a first entry without a label gives "Clear"; a present label is the first entry's |
| `WeatherRisk.TempRisk` | disaster_response.py:38-43 | 0.3 iff temp > 35 or temp < -10; 0.2 iff 30 < temp <= 35 or -10 <= temp < 0; 0 iff 0 <= temp <= 30 |
| `WeatherRisk.WindRisk` | disaster_response.py:46-47 | never above 0.4; speed/100 up to speed 40, 0.4 from 40 on; not negative for a non-negative speed |
| `WeatherRisk.RainRisk` | disaster_response.py:50-51 | never above 0.3; volume/50 up to volume 15, 0.3 from 15 on; not negative for a non-negative volume |
| `WeatherRisk.CalculateRisk` | disaster_response.py:29-56 | a score exists exactly when the observation is scorable; it is never above 0.95, and at least 0.2 when wind and rain are not negative |
| `WeatherRisk.MissingConditionIsClear` | disaster_response.py:34-35 | a missing `weather` list or a missing first label scores the same as the label "Clear" |
| `WeatherRisk.UnknownConditionIsClear` | disaster_response.py:35 | a label not in the table scores the same as "Clear" |
| `WeatherRisk.OnlyFirstConditionCounts` | disaster_response.py:34 | entries after the first in the `weather` list do not affect the score |
| `WeatherRisk.EmptyObservationScore` | disaster_response.py:29-56 | an observation with none of the fields scores exactly 0.2 |
| `WeatherRisk.EmptyConditionListFails` | disaster_response.py:34 | a present but empty `weather` list cannot be scored |
| `WeatherRisk.WindMonotone` | disaster_response.py:46-54 | with the other fields fixed, a higher wind speed never lowers the score |
| `WeatherRisk.RainMonotone` | disaster_response.py:50-54 | with the other fields fixed, a higher rain volume never lowers the score |
| `WeatherRisk.WindSaturates` | disaster_response.py:47 | any wind speed of 40 or more scores as 40 |
| `WeatherRisk.RainSaturates` | disaster_response.py:51 | any rain volume of 15 or more scores as 15 |
| `WeatherRisk.MissingWindAndRainAreZero` | disaster_response.py:46-51 | an absent wind speed or rain volume scores as 0 |
| `WeatherRisk.ExtremeObservationIsCapped` | disaster_response.py:54 | Tornado, 40 degrees, wind 200, rain 100: the unclamped sum is 2.1 and the score is 0.95 |
| `WeatherRisk.ModerateObservationIsCapped` | disaster_response.py:54 | Rain, 32 degrees, wind 10, rain 5: the unclamped sum is 1.1 and the score is 0.95 |
| `WeatherRisk.MildObservationIsNotCapped` | disaster_response.py:29-56 | Clear, 20 degrees, wind 5, no rain scores 0.25 |
| `WeatherRisk.WindOnlyScore` | disaster_response.py:29-56 | with only a wind speed w <= 40 given, the score is 0.2 + w/100, so it has no lower bound as w decreases |
| `WeatherRisk.NegativeWindScoresBelowZero` | disaster_response.py:46-54 | a wind speed of -1000 gives the score -9.8, a negative score |
| `ResponseSystem.RiskColor` | disaster_response.py:144-151 | green iff score < 0.3, orange iff 0.3 <= score < 0.7, red iff score >= 0.7, so exactly one colour applies |
| `ResponseSystem.RiskColorMonotone` | disaster_response.py:144-151 | a higher score never gets a less severe colour |
| `ResponseSystem.FetchWeatherData` | disaster_response.py:87-103 | a record exactly when the reply has status 200 and is scorable; it copies name, lat and lon, keeps the observation and the clock reading, and its score is the scorer's |
| `ResponseSystem.Successful` | disaster_response.py:108-110 | the filtered results are never more than the locations |
| `ResponseSystem.SuccessfulAppend` | disaster_response.py:108-110 | the results for a split location list are the concatenation of the results for its parts, so location order is kept |
| `ResponseSystem.SuccessfulMembers` | disaster_response.py:108-110 | a record is returned exactly when some location's fetch produced it |
| `ResponseSystem.SuccessfulCount` | disaster_response.py:108-110 | with K of N fetches failing, exactly N - K records are returned |
| `ResponseSystem.AllFailedGivesNothing` | disaster_response.py:105-112 | with zero locations or every fetch failing, no record is returned |
| `ResponseSystem.ToMap` | disaster_response.py:111 | the map's keys are exactly the records' names, and each key maps to a record of that name |
| `ResponseSystem.ToMapHoldsEachRecord` | disaster_response.py:111 | with distinct names, each record is stored under its own name |
| `ResponseSystem.SuccessfulNamesFromLocations` | disaster_response.py:94 | every returned record's name is a monitored location's name |
| `ResponseSystem.SuccessfulDistinct` | disaster_response.py:108-110 | distinct location names give returned records with distinct names |
| `ResponseSystem.DisasterResponseSystem.constructor` | disaster_response.py:59-75 | the system starts with the given locations and an empty snapshot map |
| `ResponseSystem.DisasterResponseSystem.UpdateAllLocations` | disaster_response.py:105-112 | returns the successful records in location order and replaces the map by the map from their names to them, keeping nothing of the old map |
| `ResponseSystem.RefreshStoresEachRecord` | disaster_response.py:105-112 | after a refresh over distinctly named locations, the keys are exactly the returned names and each maps to its record |

## Left out

- The HTTP request, the service URL and its parameters, and reading `OPENWEATHER_API_KEY` (disaster_response.py:62, 79-88) are network and environment I/O. The outcome of each location's request is an input instead.
- The `ThreadPoolExecutor` fan-out (disaster_response.py:107-108): the workers share no state and `executor.map` returns results in input order, so the model is a sequential loop over the locations.
- `datetime.now().isoformat()` (disaster_response.py:99): the clock reading is an opaque string supplied with each outcome.
- The logging `print` on a failed fetch (disaster_response.py:102) is output only. The model just drops the record.
- JSON values of the wrong type: a non-numeric `temp`, a `weather` entry that is not a dict, and the like. These raise inside the `try` and drop the location. The observation type is typed, so they cannot occur in the model; the empty `weather` list is the one raising case modelled.
- The full reply: `Snapshot.weatherData` keeps only the fields the scorer reads (the condition list's labels, temperature, wind speed, last-hour rain), not the whole decoded reply stored at disaster_response.py:97, so the passthrough of other fields (humidity and the rest) is not modelled.
- An absent block (`main`, `wind`, `rain`) and an absent key inside it are one `None` in the model, since the scorer defaults both to 0 alike.
- Python floating-point rounding: the arithmetic is on exact reals.
- The Flask routes, the HTML and JavaScript page, the folium map in `create_heatmap`, and its popup (disaster_response.py:114-142, 155-233) are presentation. The popup indexes `humidity` without a default, but that is rendering, not scoring.
- The hard-coded city list (disaster_response.py:64-75) is configuration: the constructor takes the locations as a parameter.
- The unused pandas, numpy and scikit-learn imports (disaster_response.py:4-7) do nothing.
