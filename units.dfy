/** Unit handling of the sensor readings: `getTemperature`,
    `getTemperatureJitter` and `getHumidity`. The configured unit is a
    parameter here; the program reads it once from its environment. */
module Units {

  /** The only unit string that triggers a conversion; any other value
      (the default is "C") leaves readings in degrees Celsius. */
  const Fahrenheit: string := "F"

  /** Offset of the two synthetic bootstrap samples around a temperature. */
  const JitterOffset: real := 0.3

  /** `getTemperature`: converts a Celsius reading to Fahrenheit when the
      unit is "F", and returns it unchanged otherwise. */
  function GetTemperature(unit: string, temperature: real): real
  {
    if unit == Fahrenheit then temperature * (9.0 / 5.0) + 32.0 else temperature
  }

  /** Inverse of `GetTemperature`: the reading in degrees Celsius. */
  function CelsiusOf(unit: string, shown: real): real
  {
    if unit == Fahrenheit then (shown - 32.0) * (5.0 / 9.0) else shown
  }

  /** Converting and converting back gives the reading again. */
  lemma TemperatureRoundTrip(unit: string, temperature: real)
    ensures CelsiusOf(unit, GetTemperature(unit, temperature)) == temperature
    ensures GetTemperature(unit, CelsiusOf(unit, temperature)) == temperature
  {
  }

  /** The conversion keeps the order of readings strictly. */
  lemma TemperatureStrictlyIncreasing(unit: string, x: real, y: real)
    requires x < y
    ensures GetTemperature(unit, x) < GetTemperature(unit, y)
  {
  }

  /** `getTemperatureJitter`: the two synthetic samples, each obtained by
      passing `temperature -/+ 0.3` through `GetTemperature`. They are
      ordered, centred on `GetTemperature(unit, temperature)`, and 0.6
      apart in Celsius but 1.08 apart in Fahrenheit, because the offset is
      applied before the conversion. */
  function GetTemperatureJitter(unit: string, temperature: real): (r: (real, real))
    ensures r.0 < r.1
    ensures r.0 + r.1 == 2.0 * GetTemperature(unit, temperature)
    ensures r.1 - r.0 == (if unit == Fahrenheit then 1.08 else 0.6)
  {
    (GetTemperature(unit, temperature - JitterOffset), GetTemperature(unit, temperature + JitterOffset))
  }

  /** `getHumidity`: humidity is never converted, whatever the unit. */
  function GetHumidity(humidity: real): (r: real)
    ensures r == humidity
  {
    humidity
  }
}
