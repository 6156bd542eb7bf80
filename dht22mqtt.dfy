/** The logic of the sensor daemon around the filter: the MQTT topic rule,
    the per-cycle verdict, the tally of published verdicts, and one polling
    cycle that feeds a temperature and a humidity reading through their two
    filters. Configuration comes in as parameters instead of the process
    environment; the MQTT publishes themselves are not modelled. */
module Dht22Mqtt {
  import opened Stats
  import opened Units
  import opened Filter

  /** `s.endswith('/')` */
  predicate EndsWithSlash(s: string)
  {
    |s| > 0 && s[|s| - 1] == '/'
  }

  /** Python's substring test `sub in s`. */
  predicate Contains(s: string, sub: string)
    decreases |s|
  {
    if |sub| > |s| then false
    else if s[..|sub|] == sub then true
    else Contains(s[1..], sub)
  }

  /** An occurrence in a suffix is an occurrence. */
  lemma {:induction false} ContainsInSuffix(s: string, i: nat, sub: string)
    requires i <= |s| && Contains(s[i..], sub)
    ensures Contains(s, sub)
    decreases i
  {
    if i > 0 {
      assert s[1..][i - 1..] == s[i..];
      ContainsInSuffix(s[1..], i - 1, sub);
    }
  }

  /** A text lacking the first character of a non-empty pattern does not
      contain the pattern. */
  lemma {:induction false} NotContainsWithoutFirst(s: string, sub: string)
    requires |sub| > 0 && sub[0] !in s
    ensures !Contains(s, sub)
    decreases |s|
  {
    if |sub| <= |s| {
      assert s[..|sub|][0] == s[0];
      NotContainsWithoutFirst(s[1..], sub);
    }
  }

  /** The default `mqtt_chatter` level, and the words the daemon looks for
      in it. */
  const DefaultChatter: string := "essential|ha|full"
  const EssentialAndHa: string := "essential|ha"
  const FullChatter: string := "full"

  /** The default chatter level includes "full" (and so keeps the tally);
      the level `essential|ha` does not. */
  lemma DefaultChatterIsFull()
    ensures Contains(DefaultChatter, FullChatter)
    ensures !Contains(EssentialAndHa, FullChatter)
  {
    assert DefaultChatter[13..] == FullChatter;
    ContainsInSuffix(DefaultChatter, 13, FullChatter);
    NotContainsWithoutFirst(EssentialAndHa, FullChatter);
  }

  /** The base topic: a '/' is appended unless the topic already ends in one,
      then the device id and a closing '/'. */
  function Topic(topic: string, deviceId: string): (r: string)
    ensures |r| == |topic| + |deviceId| + (if EndsWithSlash(topic) then 1 else 2)
    ensures r[..|topic|] == topic
    ensures r[|r| - |deviceId| - 1..] == deviceId + "/"
    ensures r[|r| - |deviceId| - 2] == '/'
  {
    var prefix := if EndsWithSlash(topic) then topic else topic + "/";
    prefix + deviceId + "/"
  }

  /** Exactly one '/' separates the topic from the device id: a topic given
      with or without its trailing '/' yields the same result. */
  lemma TopicIgnoresTrailingSlash(topic: string, deviceId: string)
    requires !EndsWithSlash(topic)
    ensures Topic(topic + "/", deviceId) == Topic(topic, deviceId)
    ensures Topic(topic, deviceId) == topic + "/" + deviceId + "/"
  {
    assert EndsWithSlash(topic + "/");
  }

  /** The default configuration, `zigbee2mqtt/` and `dht22`. */
  lemma DefaultTopic()
    ensures Topic("zigbee2mqtt/", "dht22") == "zigbee2mqtt/dht22/"
    ensures Topic("zigbee2mqtt", "dht22") == "zigbee2mqtt/dht22/"
  {
    assert EndsWithSlash("zigbee2mqtt/");
    TopicIgnoresTrailingSlash("zigbee2mqtt", "dht22");
  }

  const AccurateLabel: string := "accurate"
  const OutlierLabel: string := "outlier"

  /** The cycle verdict: "accurate" only when both filter verdicts are
      exactly `False`; a `None` from a bootstrapping filter, like a `True`,
      makes it "outlier". */
  function Detected(temperatureVerdict: Verdict, humidityVerdict: Verdict): (r: string)
    ensures r == AccurateLabel || r == OutlierLabel
    ensures r == AccurateLabel <==> temperatureVerdict == Accurate && humidityVerdict == Accurate
  {
    if temperatureVerdict == Accurate && humidityVerdict == Accurate then AccurateLabel else OutlierLabel
  }

  /** The first cycles after start-up, or after a flush, are reported as
      outliers whatever the readings: a bootstrapping filter gives no verdict. */
  lemma BootstrapCycleIsOutlier(stack: seq<real>, error: nat, value: real, unit: string, humidityVerdict: Verdict)
    requires error >= FlushThreshold || |stack| <= FlushThreshold
    ensures Detected(Process(stack, error, value, TemperatureType, unit).verdict, humidityVerdict) == OutlierLabel
  {
  }

  /** `dht22mqtt_sensor_tally` after counting `key` once: a new key starts
      at 1, a known key goes up by 1, every other key keeps its count. */
  function Tallied(tally: map<string, nat>, key: string): (r: map<string, nat>)
    ensures key in r && r[key] == (if key in tally then tally[key] + 1 else 1)
    ensures forall k :: k in r <==> k in tally || k == key
    ensures forall k :: k in tally && k != key ==> r[k] == tally[k]
  {
    tally[key := if key in tally then tally[key] + 1 else 1]
  }

  /** The count a tally holds for a key, 0 for a key never seen. */
  function CountOf(tally: map<string, nat>, key: string): nat
  {
    if key in tally then tally[key] else 0
  }

  /** The tally after counting a sequence of keys from an empty one. */
  function TallyOf(keys: seq<string>): map<string, nat>
  {
    if keys == [] then map[] else Tallied(TallyOf(keys[..|keys| - 1]), keys[|keys| - 1])
  }

  /** The tally counts occurrences: after any sequence of updates, each key
      holds exactly the number of times it was counted. */
  lemma {:induction false} TallyCountsOccurrences(keys: seq<string>, key: string)
    ensures CountOf(TallyOf(keys), key) == multiset(keys)[key]
  {
    if keys != [] {
      var init := keys[..|keys| - 1];
      TallyCountsOccurrences(init, key);
      assert keys == init + [keys[|keys| - 1]];
    }
  }

  /** The daemon's filter state between polling cycles. */
  class Monitor {
    /** `unit` and `mqtt_chatter` from the environment. */
    const unit: string
    const chatter: string
    var tempStack: SampleStack
    var tempErrors: nat
    var humStack: SampleStack
    var humErrors: nat
    var tally: map<string, nat>

    /** The two windows are different lists. */
    predicate Valid()
      reads this
    {
      tempStack != humStack
    }

    /** Start-up: two empty windows, no errors, an empty tally. */
    constructor (unit: string, chatter: string)
      ensures Valid() && fresh(tempStack) && fresh(humStack)
      ensures this.unit == unit && this.chatter == chatter
      ensures tempStack.items == [] && tempErrors == 0
      ensures humStack.items == [] && humErrors == 0
      ensures tally == map[]
    {
      this.unit := unit;
      this.chatter := chatter;
      tempStack := new SampleStack();
      tempErrors := 0;
      humStack := new SampleStack();
      humErrors := 0;
      tally := map[];
    }

    /** The count kept by `updateFullSensorTallyMqtt`, only under the
        "full" chatter level; the publish is not modelled. */
    method UpdateTally(key: string)
      modifies this
      ensures tally == if Contains(chatter, FullChatter) then Tallied(old(tally), key) else old(tally)
      ensures tempStack == old(tempStack) && humStack == old(humStack)
      ensures tempErrors == old(tempErrors) && humErrors == old(humErrors)
    {
      if Contains(chatter, FullChatter) {
        tally := Tallied(tally, key);
      }
    }

    /** One successful polling cycle: the raw temperature is converted to
        the configured unit, both readings go through their filters, the
        verdicts are combined and the result is counted. */
    method Cycle(rawTemperature: real, rawHumidity: real) returns (temperature: real, humidity: real, detected: string)
      requires Valid()
      modifies this, tempStack, humStack
      ensures Valid()
      ensures temperature == GetTemperature(unit, rawTemperature) && humidity == GetHumidity(rawHumidity)
      ensures var t := Process(old(tempStack.items), old(tempErrors), temperature, TemperatureType, unit);
              var h := Process(old(humStack.items), old(humErrors), humidity, HumidityType, unit);
        && tempStack.items == t.stack && tempErrors == t.errors
        && humStack.items == h.stack && humErrors == h.errors
        && detected == Detected(t.verdict, h.verdict)
      ensures tally == if Contains(chatter, FullChatter) then Tallied(old(tally), detected) else old(tally)
    {
      temperature := GetTemperature(unit, rawTemperature);
      humidity := GetHumidity(rawHumidity);
      var temperatureVerdict, humidityVerdict;
      tempStack, tempErrors, temperatureVerdict := ProcessSensorValue(tempStack, tempErrors, temperature, TemperatureType, unit);
      humStack, humErrors, humidityVerdict := ProcessSensorValue(humStack, humErrors, humidity, HumidityType, unit);
      detected := Detected(temperatureVerdict, humidityVerdict);
      UpdateTally(detected);
    }
  }

  /** In Fahrenheit mode a reading is converted once before it reaches the
      filter and the bootstrap jitter converts value -/+ 0.3 again: a first
      reading of 20 degrees Celsius leaves the window [68, 153.86, 154.94]
      instead of [68, 67.46, 68.54]. */
  lemma FahrenheitJitterConvertedTwice()
    ensures GetTemperature("F", 20.0) == 68.0
    ensures Process([], 0, GetTemperature("F", 20.0), TemperatureType, "F").stack == [68.0, 153.86, 154.94]
  {
  }

  /** Because of that second conversion the verdicts depend on the unit:
      the raw readings 20, 20, 21 degrees Celsius make the third reading an
      outlier when reported in Celsius and an accurate value when reported
      in Fahrenheit. */
  lemma VerdictsDependOnUnit()
    ensures [GetTemperature("F", 20.0), GetTemperature("F", 20.0), GetTemperature("F", 21.0)] == [68.0, 68.0, 69.8]
    ensures Verdicts([], 0, [20.0, 20.0, 21.0], TemperatureType, "C") == [NoVerdict, NoVerdict, Outlier]
    ensures Verdicts([], 0, [68.0, 68.0, 69.8], TemperatureType, "F") == [NoVerdict, NoVerdict, Accurate]
  {
    CelsiusRun();
    FahrenheitRun();
  }

  lemma CelsiusRun()
    ensures Verdicts([], 0, [20.0, 20.0, 21.0], TemperatureType, "C") == [NoVerdict, NoVerdict, Outlier]
  {
    var w1, w2 := [20.0, 19.7, 20.3], [20.0, 19.7, 20.3, 19.7, 20.3];
    CelsiusBootstrap();
    CelsiusThirdReading();
    var third := Process(w2, 0, 21.0, TemperatureType, "C");
    VerdictsCons(w2, 0, [21.0], TemperatureType, "C", third);
    VerdictsCons(w1, 0, [20.0, 21.0], TemperatureType, "C", Outcome(w2, 0, NoVerdict));
    VerdictsCons([], 0, [20.0, 20.0, 21.0], TemperatureType, "C", Outcome(w1, 0, NoVerdict));
  }

  lemma FahrenheitRun()
    ensures Verdicts([], 0, [68.0, 68.0, 69.8], TemperatureType, "F") == [NoVerdict, NoVerdict, Accurate]
  {
    var w1, w2 := [68.0, 153.86, 154.94], [68.0, 153.86, 154.94, 153.86, 154.94];
    FahrenheitBootstrap();
    FahrenheitThirdReading();
    var third := Process(w2, 0, 69.8, TemperatureType, "F");
    VerdictsCons(w2, 0, [69.8], TemperatureType, "F", third);
    VerdictsCons(w1, 0, [68.0, 69.8], TemperatureType, "F", Outcome(w2, 0, NoVerdict));
    VerdictsCons([], 0, [68.0, 68.0, 69.8], TemperatureType, "F", Outcome(w1, 0, NoVerdict));
  }

  lemma CelsiusBootstrap()
    ensures Process([], 0, 20.0, TemperatureType, "C") == Outcome([20.0, 19.7, 20.3], 0, NoVerdict)
    ensures Process([20.0, 19.7, 20.3], 0, 20.0, TemperatureType, "C")
         == Outcome([20.0, 19.7, 20.3, 19.7, 20.3], 0, NoVerdict)
  {
  }

  lemma CelsiusThirdReading()
    ensures Process([20.0, 19.7, 20.3, 19.7, 20.3], 0, 21.0, TemperatureType, "C").verdict == Outlier
  {
    var c := [20.0, 19.7, 20.3, 19.7, 20.3];
    assert Sum(c) == 100.0;
    assert Mean(c) == 20.0;
    assert SquaredDeviations(c, 20.0) == 0.36;
    assert PVariance(c) == 0.072;
  }

  lemma FahrenheitBootstrap()
    ensures Process([], 0, 68.0, TemperatureType, "F") == Outcome([68.0, 153.86, 154.94], 0, NoVerdict)
    ensures Process([68.0, 153.86, 154.94], 0, 68.0, TemperatureType, "F")
         == Outcome([68.0, 153.86, 154.94, 153.86, 154.94], 0, NoVerdict)
  {
  }

  lemma FahrenheitThirdReading()
    ensures Process([68.0, 153.86, 154.94, 153.86, 154.94], 0, 69.8, TemperatureType, "F").verdict == Accurate
  {
    var f := [68.0, 153.86, 154.94, 153.86, 154.94];
    assert Sum(f) == 685.6;
    assert Mean(f) == 137.12;
    assert SquaredDeviations(f, 137.12) == 5973.1344;
    assert PVariance(f) == 1194.62688;
  }
}
