# dht22mqtt — a verified model of the outlier filter

`dht22mqtt` is a small daemon. It polls a DHT22/DHT11 temperature and
humidity sensor and publishes the readings over MQTT to Home Assistant.
Before a reading is published, it passes through an adaptive outlier filter,
`processSensorValue`. The filter keeps a rolling window of recent samples
and a count of consecutive outliers, and works as a small state machine:

- **Flush.** Once the count reaches 3, the window is emptied.
- **Bootstrap.** While the window holds at most 3 samples, every value is
  absorbed. A temperature also brings two jitter samples at -/+ 0.3.
- **Steady state.** A value is accurate iff it lies strictly inside
  mean -/+ 3 population standard deviations. An accurate value resets the
  count and is appended if it is new. An outlier increments the count.
- **Eviction.** The oldest sample is dropped when the window is longer
  than 10.

A companion script, `dht22mqtt_visualize.py`, replays a recorded dataset
through a line-for-line copy of the same filter, fixed to Celsius. It
labels each row with its kind of outlier and marks the rows after which a
filter will flush.

The model has five modules:

- `Stats` (`stats.dfy`): mean, population variance and the band test.
  Samples are `real`. The test `mean - 3σ < v < mean + 3σ` is stated
  square-free as `(v - mean)² < 9·pvar`, and `WithinBandIsSigmaTest`
  proves the two agree for the non-negative σ whose square is the
  population variance.
- `Units` (`units.dfy`): `getTemperature`, `getTemperatureJitter` and
  `getHumidity`. The configured unit is a parameter.
- `Filter` (`filter.dfy`):
  - `Process` specifies one call on values.
  - `SampleStack` is the Python list that the call appends to and pops in
    place.
  - `ProcessSensorValue` is the imperative call, proved against `Process`.
  - Lemmas state the flush, bootstrap, band, dedup and eviction rules and
    the length bound over any run.
  - The visualizer's copy of the filter (`dht22mqtt_visualize.py:43-77`)
    is identical to the daemon's, so both are modelled by these members.
- `Dht22Mqtt` (`dht22mqtt.dfy`):
  - the topic rule, the per-cycle verdict and the tally;
  - `Monitor`, the daemon's state between polling cycles, with the method
    `Cycle` for one successful cycle.
- `Visualize` (`visualize.dfy`):
  - `LabelRows` specifies the dataset labelling, and `ProcessDataset` is
    the loop proved against it;
  - row types, reset marks, and the independence of the two filters.

Two behaviours of the source are reproduced as written:

- **Fahrenheit double conversion.** In Fahrenheit mode the daemon converts
  a reading before filtering it. The bootstrap jitter then converts
  `value -/+ 0.3` a second time. A first reading of 20 °C therefore leaves
  the window `[68, 153.86, 154.94]` (`FahrenheitJitterConvertedTwice`).
  The same raw readings can also be classified differently in the two
  units (`VerdictsDependOnUnit`).
- **Two verdict combinations.** The daemon reports "accurate" only when
  both verdicts are exactly `False`, so a bootstrap `None` counts as an
  outlier. The visualizer tests truthiness, so the same `None` counts as
  accurate (`BootstrapReadDifferently`).

Python's `None` / `False` / `True` verdicts are the constructors
`NoVerdict` / `Accurate` / `Outlier` of `Filter.Verdict`.

## Model

| member | source | states |
|---|---|---|
| Stats.Mean | dht22mqtt.py:112 | defines `statistics.mean` of a non-empty window: the sum divided by the number of samples |
| Stats.PVariance | dht22mqtt.py:111 | the population variance of a non-empty window is non-negative, so its square root `pstdev` exists |
| Stats.WithinBand | dht22mqtt.py:115 | defines the band test square-free: (v - mean)² < k²·variance; its meaning as the sigma test is proved in `WithinBandIsSigmaTest` |
| Stats.SquaredBand | dht22mqtt.py:115 | for t >= 0 the strict two-sided test -t < d < t holds iff d*d < t*t |
| Stats.BandTestSquared | dht22mqtt.py:115 | for sigma, k >= 0: m - sigma*k < v < m + sigma*k iff (v-m)² < k²·sigma² |
| Stats.WithinBandIsSigmaTest | dht22mqtt.py:111-115 | the square-free band test holds iff mean - k·sigma < v < mean + k·sigma, for the non-negative sigma whose square is the population variance (`pstdev`) |
| Stats.ConstantWindowRejectsAll | dht22mqtt.py:111-122 | a window of equal samples has mean equal to that sample and variance 0, and the strict band rejects every value, even that sample |
| Units.GetTemperature | dht22mqtt.py:80-83 | defines `getTemperature`: t·9/5 + 32 when the unit is exactly "F", the reading unchanged for any other unit |
| Units.TemperatureRoundTrip | dht22mqtt.py:80-83 | the conversion to the configured unit is invertible in both directions (Celsius <-> Fahrenheit, identity otherwise) |
| Units.TemperatureStrictlyIncreasing | dht22mqtt.py:80-83 | the conversion preserves strict order of readings |
| Units.GetTemperatureJitter | dht22mqtt.py:76-77 | the two jitter samples are ordered, centred on the converted reading, and 0.6 apart in Celsius but 1.08 apart in Fahrenheit |
| Units.GetHumidity | dht22mqtt.py:86-87 | humidity is returned unconverted |
| Filter.AppendIfAbsent | dht22mqtt.py:101-102 | the value is in the result; the result's members are the old ones plus the value; the old window is a prefix; the length grows by one iff the value was absent |
| Filter.BootstrapStack | dht22mqtt.py:100-107 | the bootstrap window keeps the old window as a prefix and contains the value; it grows by at most 3 for temperature (value plus two jitter samples) and, for any other type, is exactly append-if-absent |
| Filter.Evict | dht22mqtt.py:125-126 | the result is a suffix of the window, at most one sample shorter; a window of at most 10 is unchanged and one of at most 11 ends at most 10 |
| Filter.Process | dht22mqtt.py:93-127 | defines one call on values, branch for branch: flush at count >= 3, bootstrap on <= 3 samples with no verdict, otherwise the band test with append-if-absent and count reset, or count + 1, then eviction; the visualizer's copy (dht22mqtt_visualize.py:43-77) is the same code |
| Filter.SampleStack.Append | dht22mqtt.py:102 | `stack.append(x)`: the list becomes the old list followed by x |
| Filter.SampleStack.PopOldest | dht22mqtt.py:126 | `stack.pop(0)`: returns the oldest sample and removes exactly it |
| Filter.ProcessSensorValue | dht22mqtt.py:93-127 | the returned list, count and verdict are exactly `Process` of the old list; without a flush the caller's list is mutated and returned; a flush returns a fresh list and leaves the caller's list untouched |
| Filter.FlushComesFirst | dht22mqtt.py:95-97 | with an incoming count >= 3 the call equals a call on an empty window with count 0: a bootstrap with no verdict |
| Filter.BootstrapPhase | dht22mqtt.py:100-108 | on a window of <= 3 samples: no verdict, count unchanged, value appended only if absent, a temperature always followed by its two unchecked jitter samples, length at most 6 |
| Filter.SteadyPhase | dht22mqtt.py:110-127 | on a longer window a verdict is always given; accurate iff strictly inside mean -/+ 3·pstdev; accurate resets the count and appends if absent; outlier adds 1 to the count and appends nothing; then the oldest sample goes if the length exceeds 10 |
| Filter.OutlierLeavesWindow | dht22mqtt.py:120-126 | on a window of at most 10, an outlier leaves the window exactly as it was and adds exactly 1 to the count |
| Filter.AccurateInsertsOnce | dht22mqtt.py:116-119 | an accurate value ends up in the window, resets the count, and leaves the window unchanged when it was already present |
| Filter.ProcessKeepsBound | dht22mqtt.py:100-127 | one call keeps a window of at most 10 samples at most 10 |
| Filter.Verdicts | dht22mqtt.py:238-252 | a run of calls gives one verdict per value |
| Filter.RunKeepsBound | dht22mqtt.py:125-126 | any sequence of calls from a window of at most 10 (in particular from the empty one) keeps it at most 10 |
| Filter.ErrorCountTracksOutliers | dht22mqtt.py:95-122 | an outlier adds 1 to a count below 3, an accurate value clears it, a bootstrap call keeps it or resets it after a flush |
| Filter.ThreeOutliersThenFlush | dht22mqtt.py:95-97 | three consecutive outliers start from count 0 and end at 3, and the next call flushes: no verdict and a window holding only the new value (and its jitter for temperature) |
| Filter.RepeatedValueDoesNotGrow | dht22mqtt.py:101-102 | feeding the same humidity value twice, the second call never lengthens the window |
| Filter.TemperatureBootstrapExample | dht22mqtt.py:103-107 | an empty Celsius temperature window fed 22.5 becomes [22.5, 22.2, 22.8] |
| Filter.HumidityBootstrapExample | dht22mqtt.py:100-108 | an empty humidity window fed 55.0 becomes exactly [55.0] |
| Filter.SteadyOutlierExample | dht22mqtt.py:115-122 | 25.0 against the window [20.0, 20.3, 19.7, 20.0, 20.1] is an outlier: count 1, window unchanged |
| Dht22Mqtt.Topic | dht22mqtt.py:21-23 | the topic is a prefix of the result, which ends in device id + '/', with exactly one '/' between them and the length that implies |
| Dht22Mqtt.TopicIgnoresTrailingSlash | dht22mqtt.py:21-23 | a topic with or without its trailing '/' gives the same result, topic + '/' + device id + '/' |
| Dht22Mqtt.DefaultTopic | dht22mqtt.py:18-23 | the defaults give `zigbee2mqtt/dht22/` |
| Dht22Mqtt.Detected | dht22mqtt.py:256-260 | the cycle verdict is "accurate" iff both filter verdicts are exactly `False`, and "outlier" otherwise |
| Dht22Mqtt.BootstrapCycleIsOutlier | dht22mqtt.py:256-260 | a cycle whose temperature filter bootstraps (or flushes) is reported as "outlier", whatever the humidity verdict |
| Dht22Mqtt.Tallied | dht22mqtt.py:172-175 | the counted key goes from absent to 1 or up by 1; every other key keeps its count; no key is removed |
| Dht22Mqtt.TallyCountsOccurrences | dht22mqtt.py:172-175 | after any sequence of updates from an empty tally, each key's count is its number of occurrences |
| Dht22Mqtt.Contains | dht22mqtt.py:171 | defines Python's substring test `sub in s`: some position of s starts with sub |
| Dht22Mqtt.DefaultChatterIsFull | dht22mqtt.py:38 | under the default chatter level the substring test for "full" holds; under `essential|ha` it does not |
| Dht22Mqtt.Monitor.constructor | dht22mqtt.py:45-48 | both windows start empty and distinct, both counts at 0, the tally empty |
| Dht22Mqtt.Monitor.UpdateTally | dht22mqtt.py:170-175 | under a chatter level containing "full" the tally counts the key; otherwise it is unchanged; the filter state is untouched |
| Dht22Mqtt.Monitor.Cycle | dht22mqtt.py:235-264 | the temperature is converted once, each reading goes through its own filter, the new windows and counts are those the filters return, the verdict combines both, and it is tallied |
| Dht22Mqtt.FahrenheitJitterConvertedTwice | dht22mqtt.py:235 | in Fahrenheit, 20 °C reaches the filter as 68 and its jitter is converted again: the window becomes [68, 153.86, 154.94] |
| Dht22Mqtt.VerdictsDependOnUnit | dht22mqtt.py:103-107 | the raw readings 20, 20, 21 °C end in an outlier in Celsius but in an accurate value in Fahrenheit |
| Visualize.Truthy | dht22mqtt_visualize.py:140-145 | defines the truthiness of a verdict: only `True` (an outlier) is truthy, `None` and `False` are not |
| Visualize.RowType | dht22mqtt_visualize.py:139-147 | "both outlier" iff both verdicts are truthy, "temperature outlier" iff only temperature is, "humidity outlier" iff only humidity is, otherwise "accurate"; `None` is not truthy |
| Visualize.ResetMark | dht22mqtt_visualize.py:148-152 | the reset cell is "True" iff either count after the row is >= 3, and empty otherwise |
| Visualize.LabelRows | dht22mqtt_visualize.py:116-152 | one row per reading, each row's type derived from its own two verdicts |
| Visualize.ProcessDataset | dht22mqtt_visualize.py:108-153 | the loop produces exactly `LabelRows` from two empty windows with count 0 |
| Visualize.ColumnsAreIndependent | dht22mqtt_visualize.py:116-134 | the temperature column is the temperature filter's verdicts on the temperature readings alone, whatever the humidity state, and vice versa |
| Visualize.CelsiusJitterIsExact | dht22mqtt_visualize.py:23-36 | with the unit fixed at 'C', the jitter is exactly v -/+ 0.3 and a fresh temperature window is [v, v - 0.3, v + 0.3] |
| Visualize.ResetPrecedesFlush | dht22mqtt_visualize.py:45-47 | after a row marked reset, at least one filter's next call flushes and restarts from an empty window |
| Visualize.ResetRowIsFollowedByFlush | dht22mqtt_visualize.py:149-152 | in any labelled dataset, a row marked reset is followed by a row in which at least one of the two verdicts is a bootstrap `None`, because that filter flushed |
| Visualize.FirstRowIsAccurate | dht22mqtt_visualize.py:109-147 | the first row of every dataset has two `None` verdicts, is labelled "accurate" and is not a reset |
| Visualize.BootstrapReadDifferently | dht22mqtt_visualize.py:140-147 | verdicts involving a bootstrap `None` and no `True` are "outlier" in the daemon but "accurate" in the visualizer |

## Left out

- MQTT: client setup, connection, last will, Home Assistant registration
  and every publish, including `updateEssentialMqtt` and
  `updateFullSysInternalsMqtt`. These are network I/O.
- Sensor access through `adafruit_dht` and `gpiomapping`, and the choice
  of device type. These are hardware. The readings are parameters of
  `Monitor.Cycle`.
- `log2file` and `log2stdout`, which are file and console output.
- Reading the configuration from the environment, including the
  lower-casing of the chatter level. The topic, device id, unit and
  chatter level are parameters.
- The endless polling loop, `time.sleep`, and the exception paths. On a
  `RuntimeError` the daemon tallies the error's message as a key, which
  `Monitor.UpdateTally` covers for any key, then publishes it; every other
  exception disconnects and re-raises, ending the process.
- Dht22Mqtt.Monitor.Cycle: publishes are taken to succeed, that is, the
  MQTT client exists whenever a publish is reached. The client is created
  only when the chatter level contains "essential" (dht22mqtt.py:197-198).
  With a level that contains "full" but not "essential", the publish in
  `updateFullSysInternalsMqtt` (dht22mqtt.py:163) raises, the handler at
  dht22mqtt.py:289-293 re-raises, and the process ends after both filters
  have updated their state but before the tally at dht22mqtt.py:264;
  `Cycle` instead promises the tally update. The same misconfiguration on
  the `RuntimeError` path raises at dht22mqtt.py:176, after the tally has
  been updated, and ends the process; this is not modelled either.
- Dataset loading, `timestampToSeconds` and `generatePlots`, which are
  pandas, datetime and plotting.
- IEEE floating point: samples are exact reals. Values such as
  22.5 - 0.3 = 22.2 hold exactly only in the model.
- `statistics.pstdev` is never formed: there is no square root over the
  reals. Every verdict is stated by the squared test and related to a
  given sigma with sigma² equal to the variance.
- `dht22_stack_size`: the filter tests the literal 10 instead, and the
  model follows the code.
- A general statement about how a change of unit affects verdicts: only
  the concrete case in `VerdictsDependOnUnit` is given.
- Filter.ProcessSensorValue: the error count is a `nat`. Every caller
  passes a count that starts at 0 and that only the filter changes, so it
  is never negative.
