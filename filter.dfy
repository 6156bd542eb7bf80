/** The adaptive outlier filter `processSensorValue`: a rolling window of
    recent samples (the Python list `stack`) and a counter of consecutive
    outliers (`error`). The file holds the specification of one call as a
    function on values (`Process`), the imperative method that works on the
    list in place as the source does (`ProcessSensorValue`), and what the
    source promises about them. */
module Filter {
  import opened Stats
  import opened Units

  /** `dht22_error_count_stack_flush`: the error count that flushes the
      window, and also the window length up to which it bootstraps. */
  const FlushThreshold: nat := 3

  /** `dht22_std_deviation`: half-width of the band, in standard deviations. */
  const StdDeviation: real := 3.0

  /** The literal 10 of the eviction test `len(stack) > 10`; it equals
      `dht22_stack_size`, which the filter itself never reads. */
  const MaxLength: nat := 10

  /** The `value_type` strings the callers pass. Only the first one is
      tested; every other string is treated like humidity. */
  const TemperatureType: string := "temperature"
  const HumidityType: string := "humidity"

  /** The third result of `processSensorValue`: `None` while bootstrapping,
      `False` for a value inside the band, `True` for an outlier. */
  datatype Verdict = NoVerdict | Accurate | Outlier

  /** The triple `(stack, error, outlier)` that `processSensorValue` returns. */
  datatype Outcome = Outcome(stack: seq<real>, errors: nat, verdict: Verdict)

  /** `if value not in stack: stack.append(value)`. */
  function AppendIfAbsent(s: seq<real>, v: real): (r: seq<real>)
    ensures v in r
    ensures forall x :: x in r <==> x in s || x == v
    ensures |s| <= |r| <= |s| + 1 && r[..|s|] == s
    ensures |r| == |s| <==> v in s
  {
    if v in s then s else s + [v]
  }

  /** The window after a bootstrap call: the value if it is new, then for
      temperature the two jitter samples, which are appended unchecked. */
  function BootstrapStack(s: seq<real>, value: real, valueType: string, unit: string): (r: seq<real>)
    ensures |s| <= |r| && r[..|s|] == s && value in r
    ensures |r| <= |s| + (if valueType == TemperatureType then 3 else 1)
    ensures valueType != TemperatureType ==> r == AppendIfAbsent(s, value)
  {
    var withValue := AppendIfAbsent(s, value);
    if valueType == TemperatureType then
      var (low, high) := GetTemperatureJitter(unit, value);
      withValue + [low, high]
    else
      withValue
  }

  /** `if len(stack) > 10: stack.pop(0)`: drops the oldest sample once. */
  function Evict(s: seq<real>): (r: seq<real>)
    ensures |s| <= MaxLength + 1 ==> |r| <= MaxLength
    ensures |s| - 1 <= |r| <= |s| && r == s[|s| - |r|..]
    ensures |s| <= MaxLength ==> r == s
  {
    if |s| > MaxLength then s[1..] else s
  }

  /** One call of `processSensorValue` on values: flush, then bootstrap or
      classify against the band, then evict. */
  function Process(stack: seq<real>, error: nat, value: real, valueType: string, unit: string): Outcome
  {
    var s := if error >= FlushThreshold then [] else stack;
    var e := if error >= FlushThreshold then 0 else error;
    if |s| <= FlushThreshold then
      Outcome(BootstrapStack(s, value, valueType, unit), e, NoVerdict)
    else if WithinBand(s, StdDeviation, value) then
      Outcome(Evict(AppendIfAbsent(s, value)), 0, Accurate)
    else
      Outcome(Evict(s), e + 1, Outlier)
  }

  /** The Python list the filter mutates in place. */
  class SampleStack {
    var items: seq<real>

    constructor ()
      ensures items == []
    {
      items := [];
    }

    /** `stack.append(x)` */
    method Append(x: real)
      modifies this
      ensures items == old(items) + [x]
    {
      items := items + [x];
    }

    /** `stack.pop(0)` */
    method PopOldest() returns (x: real)
      requires |items| > 0
      modifies this
      ensures x == old(items)[0] && items == old(items)[1..]
    {
      x := items[0];
      items := items[1..];
    }
  }

  /** `processSensorValue(stack, error, value, value_type)`. The caller's
      list is appended to and popped in place and returned; a flush rebinds
      the local name to a fresh empty list, so the caller's list is then
      left as it was and a new one is returned. */
  method ProcessSensorValue(stack: SampleStack, error: nat, value: real, valueType: string, unit: string)
    returns (out: SampleStack, outError: nat, outlier: Verdict)
    modifies stack
    ensures Outcome(out.items, outError, outlier) == Process(old(stack.items), error, value, valueType, unit)
    ensures error >= FlushThreshold ==> fresh(out) && stack.items == old(stack.items)
    ensures error < FlushThreshold ==> out == stack
  {
    out, outError := stack, error;
    if outError >= FlushThreshold {
      out := new SampleStack();
      outError := 0;
    }
    if |out.items| <= FlushThreshold {
      if value !in out.items {
        out.Append(value);
      }
      if valueType == TemperatureType {
        var (low, high) := GetTemperatureJitter(unit, value);
        out.Append(low);
        out.Append(high);
      }
      return out, outError, NoVerdict;
    }
    if WithinBand(out.items, StdDeviation, value) {
      outlier := Accurate;
      if value !in out.items {
        out.Append(value);
      }
      outError := 0;
    } else {
      outlier := Outlier;
      outError := outError + 1;
    }
    if |out.items| > MaxLength {
      var _ := out.PopOldest();
    }
  }

  /** Flush: an incoming error count of 3 or more empties the window and
      resets the count before anything else, so the call is a bootstrap
      call on an empty window whatever the old window held. */
  lemma FlushComesFirst(stack: seq<real>, error: nat, value: real, valueType: string, unit: string)
    requires error >= FlushThreshold
    ensures Process(stack, error, value, valueType, unit) == Process([], 0, value, valueType, unit)
    ensures Process(stack, error, value, valueType, unit)
         == Outcome(BootstrapStack([], value, valueType, unit), 0, NoVerdict)
  {
  }

  /** Bootstrap: on a window of at most 3 samples there is no verdict, the
      count is returned unchanged, the value is appended only if absent and
      a temperature always gets its two jitter samples after it. */
  lemma BootstrapPhase(stack: seq<real>, error: nat, value: real, valueType: string, unit: string)
    requires error < FlushThreshold && |stack| <= FlushThreshold
    ensures var r := Process(stack, error, value, valueType, unit);
      && r.verdict == NoVerdict
      && r.errors == error
      && r.stack == AppendIfAbsent(stack, value)
                    + (if valueType == TemperatureType
                       then [GetTemperature(unit, value - 0.3), GetTemperature(unit, value + 0.3)]
                       else [])
      && |r.stack| <= 2 * FlushThreshold
  {
  }

  /** Steady state: with more than 3 samples a verdict is always given; the
      value is accurate iff it lies strictly inside mean -/+ 3 sigma, sigma
      being the population standard deviation of the window. An accurate
      value resets the count and is appended only if absent; an outlier
      increments the count and is not appended. The oldest sample is then
      dropped if the window is longer than 10. */
  lemma SteadyPhase(stack: seq<real>, error: nat, value: real, valueType: string, unit: string, sigma: real)
    requires error < FlushThreshold && |stack| > FlushThreshold
    requires sigma >= 0.0 && sigma * sigma == PVariance(stack)
    ensures var r := Process(stack, error, value, valueType, unit);
      && r.verdict != NoVerdict
      && (r.verdict == Accurate
          <==> Mean(stack) - sigma * StdDeviation < value < Mean(stack) + sigma * StdDeviation)
      && (r.verdict == Accurate ==> r.errors == 0 && r.stack == Evict(AppendIfAbsent(stack, value)))
      && (r.verdict == Outlier ==> r.errors == error + 1 && r.stack == Evict(stack))
  {
    WithinBandIsSigmaTest(stack, StdDeviation, value, sigma);
  }

  /** An outlier on a window of legal length increments the count by
      exactly one and leaves the window as it was: the value is not
      inserted and nothing is popped. */
  lemma OutlierLeavesWindow(stack: seq<real>, error: nat, value: real, valueType: string, unit: string)
    requires |stack| <= MaxLength
    requires Process(stack, error, value, valueType, unit).verdict == Outlier
    ensures error < FlushThreshold && |stack| > FlushThreshold
    ensures Process(stack, error, value, valueType, unit) == Outcome(stack, error + 1, Outlier)
  {
  }

  /** An accurate value on a window of legal length ends up in the window,
      which is unchanged if the value was already there. */
  lemma AccurateInsertsOnce(stack: seq<real>, error: nat, value: real, valueType: string, unit: string)
    requires |stack| <= MaxLength
    requires Process(stack, error, value, valueType, unit).verdict == Accurate
    ensures var r := Process(stack, error, value, valueType, unit);
      && r.errors == 0
      && value in r.stack
      && (value in stack ==> r.stack == stack)
      && (value !in stack ==> r.stack == Evict(stack + [value]))
  {
  }

  /** One call keeps the window within 10 samples. */
  lemma ProcessKeepsBound(stack: seq<real>, error: nat, value: real, valueType: string, unit: string)
    requires |stack| <= MaxLength
    ensures |Process(stack, error, value, valueType, unit).stack| <= MaxLength
  {
  }

  /** A run of calls, each fed the window and count the previous returned;
      the outcome of the last call (the state unchanged for no call). */
  function Run(stack: seq<real>, error: nat, values: seq<real>, valueType: string, unit: string): Outcome
    decreases |values|
  {
    if values == [] then Outcome(stack, error, NoVerdict)
    else
      var r := Process(stack, error, values[0], valueType, unit);
      if |values| == 1 then r else Run(r.stack, r.errors, values[1..], valueType, unit)
  }

  /** The verdict of every call of such a run, in order. */
  function Verdicts(stack: seq<real>, error: nat, values: seq<real>, valueType: string, unit: string): (r: seq<Verdict>)
    ensures |r| == |values|
    decreases |values|
  {
    if values == [] then []
    else
      var o := Process(stack, error, values[0], valueType, unit);
      [o.verdict] + Verdicts(o.stack, o.errors, values[1..], valueType, unit)
  }

  /** The first verdict of a run is that of its first call, given the
      outcome of that call. */
  lemma VerdictsCons(stack: seq<real>, error: nat, values: seq<real>, valueType: string, unit: string, first: Outcome)
    requires |values| > 0 && first == Process(stack, error, values[0], valueType, unit)
    ensures Verdicts(stack, error, values, valueType, unit)
         == [first.verdict] + Verdicts(first.stack, first.errors, values[1..], valueType, unit)
  {
  }

  /** Starting from an empty window (or any window of legal length), no
      sequence of calls makes the window longer than 10. */
  lemma {:induction false} RunKeepsBound(stack: seq<real>, error: nat, values: seq<real>, valueType: string, unit: string)
    requires |stack| <= MaxLength
    ensures |Run(stack, error, values, valueType, unit).stack| <= MaxLength
    decreases |values|
  {
    if values != [] {
      var r := Process(stack, error, values[0], valueType, unit);
      ProcessKeepsBound(stack, error, values[0], valueType, unit);
      if |values| > 1 {
        RunKeepsBound(r.stack, r.errors, values[1..], valueType, unit);
      }
    }
  }

  /** The count is the number of consecutive outliers: an outlier adds one,
      an accurate value clears it, a bootstrap call keeps it (after a
      possible flush). */
  lemma ErrorCountTracksOutliers(stack: seq<real>, error: nat, value: real, valueType: string, unit: string)
    ensures var r := Process(stack, error, value, valueType, unit);
      && (r.verdict == Outlier ==> error < FlushThreshold && r.errors == error + 1)
      && (r.verdict == Accurate ==> r.errors == 0)
      && (r.verdict == NoVerdict ==> r.errors == if error >= FlushThreshold then 0 else error)
  {
  }

  /** Recovery: three outliers in a row can only start from a count of 0,
      leave the count at 3, and the next call, whatever its value, flushes
      and bootstraps: no verdict, and a window holding the new value alone
      (plus its two jitter samples for temperature). */
  lemma ThreeOutliersThenFlush(stack: seq<real>, error: nat, v1: real, v2: real, v3: real, v4: real,
                               valueType: string, unit: string)
    requires Process(stack, error, v1, valueType, unit).verdict == Outlier
    requires var r1 := Process(stack, error, v1, valueType, unit);
      Process(r1.stack, r1.errors, v2, valueType, unit).verdict == Outlier
    requires var r1 := Process(stack, error, v1, valueType, unit);
      var r2 := Process(r1.stack, r1.errors, v2, valueType, unit);
      Process(r2.stack, r2.errors, v3, valueType, unit).verdict == Outlier
    ensures error == 0
    ensures var r1 := Process(stack, error, v1, valueType, unit);
      var r2 := Process(r1.stack, r1.errors, v2, valueType, unit);
      var r3 := Process(r2.stack, r2.errors, v3, valueType, unit);
      var r4 := Process(r3.stack, r3.errors, v4, valueType, unit);
      && r3.errors == FlushThreshold
      && r4.verdict == NoVerdict
      && r4.errors == 0
      && r4.stack == (if valueType == TemperatureType
                      then [v4, GetTemperature(unit, v4 - 0.3), GetTemperature(unit, v4 + 0.3)]
                      else [v4])
  {
    var r1 := Process(stack, error, v1, valueType, unit);
    var r2 := Process(r1.stack, r1.errors, v2, valueType, unit);
    var r3 := Process(r2.stack, r2.errors, v3, valueType, unit);
    ErrorCountTracksOutliers(stack, error, v1, valueType, unit);
    ErrorCountTracksOutliers(r1.stack, r1.errors, v2, valueType, unit);
    ErrorCountTracksOutliers(r2.stack, r2.errors, v3, valueType, unit);
    FlushComesFirst(r3.stack, r3.errors, v4, valueType, unit);
  }

  /** Feeding the same humidity value twice in a row: the second call never
      makes the window longer than the first call left it. */
  lemma RepeatedValueDoesNotGrow(stack: seq<real>, error: nat, value: real, valueType: string, unit: string)
    requires valueType != TemperatureType && |stack| <= MaxLength
    ensures var r1 := Process(stack, error, value, valueType, unit);
      var r2 := Process(r1.stack, r1.errors, value, valueType, unit);
      |r2.stack| <= |r1.stack|
  {
    var r1 := Process(stack, error, value, valueType, unit);
    ProcessKeepsBound(stack, error, value, valueType, unit);
    if r1.verdict == Outlier {
      OutlierLeavesWindow(stack, error, value, valueType, unit);
    } else {
      assert value in r1.stack;
    }
  }

  /** A fresh temperature filter fed 22.5 in Celsius holds the value and its
      jitter samples 22.2 and 22.8. */
  lemma TemperatureBootstrapExample()
    ensures Process([], 0, 22.5, TemperatureType, "C") == Outcome([22.5, 22.2, 22.8], 0, NoVerdict)
  {
  }

  /** A fresh humidity filter fed 55.0 holds exactly [55.0]: no jitter. */
  lemma HumidityBootstrapExample()
    ensures Process([], 0, 55.0, HumidityType, "C") == Outcome([55.0], 0, NoVerdict)
  {
  }

  /** Around a mean of 20.02 with a population variance of 0.0376, 25.0 is
      an outlier: the count goes to 1 and the window is unchanged. */
  lemma SteadyOutlierExample()
    ensures Process([20.0, 20.3, 19.7, 20.0, 20.1], 0, 25.0, TemperatureType, "C")
         == Outcome([20.0, 20.3, 19.7, 20.0, 20.1], 1, Outlier)
  {
    var w := [20.0, 20.3, 19.7, 20.0, 20.1];
    assert Sum(w) == 100.1;
    assert Mean(w) == 20.02;
    assert SquaredDeviations(w, 20.02) == 0.188;
    assert PVariance(w) == 0.0376;
  }
}
