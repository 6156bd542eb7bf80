/** The offline labelling of a recorded dataset: every row's temperature
    and humidity go through two fresh filters, in Celsius, and the row is
    marked with the kind of outlier it is and whether a filter is due to
    flush. Loading, timestamps and plotting are not modelled. */
module Visualize {
  import opened Units
  import opened Filter
  import Dht22Mqtt

  /** The visualizer's fixed `dht22mqtt_temp_unit`. */
  const VisualizeUnit: string := "C"

  const BothOutlier: string := "both outlier"
  const TemperatureOutlier: string := "temperature outlier"
  const HumidityOutlier: string := "humidity outlier"
  const AccurateRow: string := "accurate"
  const ResetTrue: string := "True"

  /** Python truthiness of a verdict: only `True` is truthy, `None` and
      `False` are not. */
  predicate Truthy(v: Verdict)
  {
    v == Outlier
  }

  /** The `type` cell of a row. */
  function RowType(temperatureVerdict: Verdict, humidityVerdict: Verdict): (r: string)
    ensures r == BothOutlier <==> Truthy(temperatureVerdict) && Truthy(humidityVerdict)
    ensures r == TemperatureOutlier <==> Truthy(temperatureVerdict) && !Truthy(humidityVerdict)
    ensures r == HumidityOutlier <==> !Truthy(temperatureVerdict) && Truthy(humidityVerdict)
    ensures r == AccurateRow <==> !Truthy(temperatureVerdict) && !Truthy(humidityVerdict)
  {
    if Truthy(temperatureVerdict) && Truthy(humidityVerdict) then BothOutlier
    else if Truthy(temperatureVerdict) then TemperatureOutlier
    else if Truthy(humidityVerdict) then HumidityOutlier
    else AccurateRow
  }

  /** The `reset` cell of a row: "True" iff either error count, after the
      row, has reached 3; otherwise it keeps its initial empty string. */
  function ResetMark(temperatureErrors: nat, humidityErrors: nat): (r: string)
    ensures r == ResetTrue <==> temperatureErrors >= 3 || humidityErrors >= 3
    ensures r != ResetTrue ==> r == ""
  {
    if temperatureErrors >= 3 || humidityErrors >= 3 then ResetTrue else ""
  }

  /** A recorded dataset row: the two readings. */
  datatype Reading = Reading(temperature: real, humidity: real)

  /** The cells `processDataset` writes for a row. */
  datatype Row = Row(temperatureOutlier: Verdict, humidityOutlier: Verdict, kind: string, reset: string)

  /** The labels of the remaining readings, from the given filter states. */
  function LabelRows(tStack: seq<real>, tErrors: nat, hStack: seq<real>, hErrors: nat, readings: seq<Reading>): (r: seq<Row>)
    ensures |r| == |readings|
    ensures forall i :: 0 <= i < |r| ==> r[i].kind == RowType(r[i].temperatureOutlier, r[i].humidityOutlier)
    decreases |readings|
  {
    if readings == [] then []
    else
      var t := Process(tStack, tErrors, readings[0].temperature, TemperatureType, VisualizeUnit);
      var h := Process(hStack, hErrors, readings[0].humidity, HumidityType, VisualizeUnit);
      [Row(t.verdict, h.verdict, RowType(t.verdict, h.verdict), ResetMark(t.errors, h.errors))]
        + LabelRows(t.stack, t.errors, h.stack, h.errors, readings[1..])
  }

  /** `processDataset`: both filters start from an empty window and a zero
      count, and the rows are processed in order. */
  method ProcessDataset(readings: seq<Reading>) returns (rows: seq<Row>)
    ensures rows == LabelRows([], 0, [], 0, readings)
  {
    var tStack := new SampleStack();
    var tErrors: nat := 0;
    var hStack := new SampleStack();
    var hErrors: nat := 0;
    rows := [];
    var i := 0;
    while i < |readings|
      invariant 0 <= i <= |readings|
      invariant fresh(tStack) && fresh(hStack) && tStack != hStack
      invariant rows + LabelRows(tStack.items, tErrors, hStack.items, hErrors, readings[i..])
             == LabelRows([], 0, [], 0, readings)
    {
      ghost var before := rows;
      ghost var tBefore, hBefore := tStack.items, hStack.items;
      ghost var tErrorsBefore, hErrorsBefore := tErrors, hErrors;
      var temperatureVerdict, humidityVerdict;
      tStack, tErrors, temperatureVerdict :=
        ProcessSensorValue(tStack, tErrors, readings[i].temperature, TemperatureType, VisualizeUnit);
      hStack, hErrors, humidityVerdict :=
        ProcessSensorValue(hStack, hErrors, readings[i].humidity, HumidityType, VisualizeUnit);
      rows := rows + [Row(temperatureVerdict, humidityVerdict, RowType(temperatureVerdict, humidityVerdict),
                          ResetMark(tErrors, hErrors))];
      LabelRowsStep(before, tBefore, tErrorsBefore, hBefore, hErrorsBefore, readings[i..],
                    Outcome(tStack.items, tErrors, temperatureVerdict), Outcome(hStack.items, hErrors, humidityVerdict));
      assert readings[i..][1..] == readings[i + 1..];
      i := i + 1;
    }
  }

  /** Labelling the first remaining reading, given the outcomes of its two
      filter calls, appends its row and leaves the rest to the new states. */
  lemma LabelRowsStep(rows: seq<Row>, tStack: seq<real>, tErrors: nat, hStack: seq<real>, hErrors: nat,
                      readings: seq<Reading>, t: Outcome, h: Outcome)
    requires |readings| > 0
    requires t == Process(tStack, tErrors, readings[0].temperature, TemperatureType, VisualizeUnit)
    requires h == Process(hStack, hErrors, readings[0].humidity, HumidityType, VisualizeUnit)
    ensures rows + LabelRows(tStack, tErrors, hStack, hErrors, readings)
         == rows + [Row(t.verdict, h.verdict, RowType(t.verdict, h.verdict), ResetMark(t.errors, h.errors))]
            + LabelRows(t.stack, t.errors, h.stack, h.errors, readings[1..])
  {
  }

  function Temperatures(readings: seq<Reading>): (r: seq<real>)
    ensures |r| == |readings| && forall i :: 0 <= i < |r| ==> r[i] == readings[i].temperature
  {
    if readings == [] then [] else [readings[0].temperature] + Temperatures(readings[1..])
  }

  function Humidities(readings: seq<Reading>): (r: seq<real>)
    ensures |r| == |readings| && forall i :: 0 <= i < |r| ==> r[i] == readings[i].humidity
  {
    if readings == [] then [] else [readings[0].humidity] + Humidities(readings[1..])
  }

  function TemperatureColumn(rows: seq<Row>): (r: seq<Verdict>)
    ensures |r| == |rows| && forall i :: 0 <= i < |r| ==> r[i] == rows[i].temperatureOutlier
  {
    if rows == [] then [] else [rows[0].temperatureOutlier] + TemperatureColumn(rows[1..])
  }

  function HumidityColumn(rows: seq<Row>): (r: seq<Verdict>)
    ensures |r| == |rows| && forall i :: 0 <= i < |r| ==> r[i] == rows[i].humidityOutlier
  {
    if rows == [] then [] else [rows[0].humidityOutlier] + HumidityColumn(rows[1..])
  }

  /** The two filters evolve independently: the temperature column is the
      verdict sequence of the temperature filter run on the temperature
      readings alone, whatever the humidity filter's state, and the
      humidity column likewise. */
  lemma {:induction false} ColumnsAreIndependent(tStack: seq<real>, tErrors: nat, hStack: seq<real>, hErrors: nat,
                                                 readings: seq<Reading>)
    ensures TemperatureColumn(LabelRows(tStack, tErrors, hStack, hErrors, readings))
         == Verdicts(tStack, tErrors, Temperatures(readings), TemperatureType, VisualizeUnit)
    ensures HumidityColumn(LabelRows(tStack, tErrors, hStack, hErrors, readings))
         == Verdicts(hStack, hErrors, Humidities(readings), HumidityType, VisualizeUnit)
    decreases |readings|
  {
    if readings != [] {
      var t := Process(tStack, tErrors, readings[0].temperature, TemperatureType, VisualizeUnit);
      var h := Process(hStack, hErrors, readings[0].humidity, HumidityType, VisualizeUnit);
      ColumnsAreIndependent(t.stack, t.errors, h.stack, h.errors, readings[1..]);
      assert Temperatures(readings)[1..] == Temperatures(readings[1..]);
      assert Humidities(readings)[1..] == Humidities(readings[1..]);
    }
  }

  /** In Celsius the conversion is the identity, so a temperature's jitter
      samples are exactly value -/+ 0.3 and a fresh temperature window
      holds [v, v - 0.3, v + 0.3]. */
  lemma CelsiusJitterIsExact(v: real)
    ensures GetTemperatureJitter(VisualizeUnit, v) == (v - 0.3, v + 0.3)
    ensures Process([], 0, v, TemperatureType, VisualizeUnit).stack == [v, v - 0.3, v + 0.3]
  {
  }

  /** A row marked reset is followed, for at least one of the two filters,
      by a flush on its next call: that call starts again from an empty
      window, whatever value it is given. */
  lemma ResetPrecedesFlush(t: Outcome, h: Outcome, nextTemperature: real, nextHumidity: real)
    requires ResetMark(t.errors, h.errors) == ResetTrue
    ensures Process(t.stack, t.errors, nextTemperature, TemperatureType, VisualizeUnit)
         == Process([], 0, nextTemperature, TemperatureType, VisualizeUnit)
         || Process(h.stack, h.errors, nextHumidity, HumidityType, VisualizeUnit)
         == Process([], 0, nextHumidity, HumidityType, VisualizeUnit)
  {
    if t.errors >= FlushThreshold {
      FlushComesFirst(t.stack, t.errors, nextTemperature, TemperatureType, VisualizeUnit);
    } else {
      FlushComesFirst(h.stack, h.errors, nextHumidity, HumidityType, VisualizeUnit);
    }
  }

  /** The same over a dataset: when row i is marked reset, the next row
      has a bootstrap `None` for at least one of its two readings, because
      that filter flushed before reading it. */
  lemma {:induction false} ResetRowIsFollowedByFlush(tStack: seq<real>, tErrors: nat, hStack: seq<real>, hErrors: nat,
                                                     readings: seq<Reading>, i: nat)
    requires i + 1 < |readings|
    requires LabelRows(tStack, tErrors, hStack, hErrors, readings)[i].reset == ResetTrue
    ensures var rows := LabelRows(tStack, tErrors, hStack, hErrors, readings);
      rows[i + 1].temperatureOutlier == NoVerdict || rows[i + 1].humidityOutlier == NoVerdict
    decreases i
  {
    var t := Process(tStack, tErrors, readings[0].temperature, TemperatureType, VisualizeUnit);
    var h := Process(hStack, hErrors, readings[0].humidity, HumidityType, VisualizeUnit);
    LabelRowsStep([], tStack, tErrors, hStack, hErrors, readings, t, h);
    var rest := readings[1..];
    if i == 0 {
      var t2 := Process(t.stack, t.errors, rest[0].temperature, TemperatureType, VisualizeUnit);
      var h2 := Process(h.stack, h.errors, rest[0].humidity, HumidityType, VisualizeUnit);
      LabelRowsStep([], t.stack, t.errors, h.stack, h.errors, rest, t2, h2);
      if t.errors >= FlushThreshold {
        FlushComesFirst(t.stack, t.errors, rest[0].temperature, TemperatureType, VisualizeUnit);
      } else {
        FlushComesFirst(h.stack, h.errors, rest[0].humidity, HumidityType, VisualizeUnit);
      }
    } else {
      ResetRowIsFollowedByFlush(t.stack, t.errors, h.stack, h.errors, rest, i - 1);
    }
  }

  /** The first row of every dataset is labelled accurate: both fresh
      filters are bootstrapping and their `None` is not truthy. */
  lemma FirstRowIsAccurate(readings: seq<Reading>)
    requires |readings| > 0
    ensures var row := LabelRows([], 0, [], 0, readings)[0];
      && row.temperatureOutlier == NoVerdict && row.humidityOutlier == NoVerdict
      && row.kind == AccurateRow && row.reset == ""
  {
  }

  /** The daemon and the visualizer read the same bootstrap verdicts
      differently: the daemon reports "outlier", the visualizer "accurate". */
  lemma BootstrapReadDifferently(temperatureVerdict: Verdict, humidityVerdict: Verdict)
    requires temperatureVerdict == NoVerdict || humidityVerdict == NoVerdict
    requires !Truthy(temperatureVerdict) && !Truthy(humidityVerdict)
    ensures Dht22Mqtt.Detected(temperatureVerdict, humidityVerdict) == Dht22Mqtt.OutlierLabel
    ensures RowType(temperatureVerdict, humidityVerdict) == AccurateRow
  {
  }
}
