/// The `Temperature` value object: a Celsius reading with Fahrenheit and
/// Kelvin projections (`decimal` is modelled as `real`).
module Temperatures {

  datatype Temperature = Temperature(temperature: real) {

    function TemperatureC(): real {
      temperature
    }

    /** The application's own Fahrenheit formula, C * 5 / 8 + 32, as written. */
    function TemperatureF(): real {
      ((temperature * 5.0) / 8.0) + 32.0
    }

    function TemperatureK(): real {
      temperature + 273.0
    }
  }

  lemma CelsiusIsTheConstructorArgument(c: real)
    ensures Temperature(c).TemperatureC() == c
  {
  }

  lemma KelvinIsCelsiusPlus273(t: Temperature)
    ensures t.TemperatureK() == t.TemperatureC() + 273.0
  {
  }

  lemma FahrenheitFormula(t: Temperature)
    ensures t.TemperatureF() == t.TemperatureC() * 5.0 / 8.0 + 32.0
  {
  }

  /** Record-struct equality: two temperatures are equal exactly when their Celsius values are. */
  lemma EqualityIsCelsiusEquality(a: Temperature, b: Temperature)
    ensures a == b <==> a.TemperatureC() == b.TemperatureC()
  {
  }

  /** Both projections are strictly increasing in the Celsius value. */
  lemma ProjectionsAreStrictlyIncreasing(a: Temperature, b: Temperature)
    requires a.TemperatureC() < b.TemperatureC()
    ensures a.TemperatureK() < b.TemperatureK()
    ensures a.TemperatureF() < b.TemperatureF()
  {
  }

  /** The Celsius value, and so the temperature, is recovered from either projection. */
  lemma ProjectionsDetermineTheTemperature(a: Temperature, b: Temperature)
    ensures a.TemperatureK() == b.TemperatureK() ==> a == b
    ensures a.TemperatureF() == b.TemperatureF() ==> a == b
  {
  }

  /** The standard conversion from a Fahrenheit reading back to Celsius. */
  function CelsiusFromFahrenheit(f: real): real {
    (f - 32.0) * 5.0 / 9.0
  }

  /**
   * The Fahrenheit projection the application evidently intends,
   * C * 9 / 5 + 32: the standard inverse conversion recovers the Celsius value.
   */
  function IntendedTemperatureF(t: Temperature): (f: real)
    ensures CelsiusFromFahrenheit(f) == t.TemperatureC()
    ensures f == (t.TemperatureK() - 273.0) * 9.0 / 5.0 + 32.0
  {
    t.TemperatureC() * 9.0 / 5.0 + 32.0
  }

  /** The intended projection maps freezing and boiling water to 32 and 212, and -40 to itself. */
  lemma IntendedFahrenheitFixedPoints()
    ensures IntendedTemperatureF(Temperature(0.0)) == 32.0
    ensures IntendedTemperatureF(Temperature(100.0)) == 212.0
    ensures IntendedTemperatureF(Temperature(-40.0)) == -40.0
  {
  }

  /**
   * The projection as written disagrees with the intended one at 100 degrees
   * Celsius (94.5 against 212), and the standard inverse does not recover
   * the Celsius value from it.
   */
  lemma AsWrittenFahrenheitMissesBoilingPoint()
    ensures Temperature(100.0).TemperatureF() == 94.5
    ensures IntendedTemperatureF(Temperature(100.0)) == 212.0
    ensures CelsiusFromFahrenheit(Temperature(100.0).TemperatureF()) != 100.0
  {
  }
}
