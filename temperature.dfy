/** Temperature conversion, formatting and range checking for the form's
    temperature fields.  Numbers are exact reals; `Math.round(x)` is
    `floor(x + 1/2)`. */
module Temperature {
  import opened BreadTypes
  import Text

  /** `Math.round`: the integer nearest to `x`, halves rounded up. */
  function Round(x: real): (r: int)
    ensures r as real - 0.5 <= x < r as real + 0.5
  {
    (x + 0.5).Floor
  }

  /** Only one integer lies within half a unit below or above `x`. */
  lemma RoundUnique(x: real, n: int)
    requires n as real - 0.5 <= x < n as real + 0.5
    ensures Round(x) == n
  {
  }

  lemma RoundMonotone(x: real, y: real)
    requires x <= y
    ensures Round(x) <= Round(y)
  {
  }

  /** The exact conversions, as reference definitions. */
  function CelsiusToFahrenheit(t: real): real { t * 9.0 / 5.0 + 32.0 }

  function FahrenheitToCelsius(t: real): real { (t - 32.0) * 5.0 / 9.0 }

  function ExactConversion(t: real, from: TemperatureUnit, to: TemperatureUnit): real {
    if from == to then t
    else if from == Celsius then CelsiusToFahrenheit(t)
    else FahrenheitToCelsius(t)
  }

  predicate Integral(x: real) {
    x == x.Floor as real
  }

  /** `convertTemperature`: unchanged for equal units, otherwise the whole
      number nearest to the exact conversion.  (The final `return temp` is
      unreachable: with two units every unequal pair is one of the two
      conversions.) */
  function ConvertTemperature(t: real, from: TemperatureUnit, to: TemperatureUnit): (r: real)
    ensures from == to ==> r == t
    ensures from != to ==> Integral(r)
    ensures from != to ==> r - 0.5 <= ExactConversion(t, from, to) < r + 0.5
  {
    if from == to then t
    else if from == Celsius then Round(t * 9.0 / 5.0 + 32.0) as real
    else Round((t - 32.0) * 5.0 / 9.0) as real
  }

  /** For fixed units, conversion never reverses the order of two readings. */
  lemma ConvertMonotone(t1: real, t2: real, from: TemperatureUnit, to: TemperatureUnit)
    requires t1 <= t2
    ensures ConvertTemperature(t1, from, to) <= ConvertTemperature(t2, from, to)
  {
    if from != to {
      if from == Celsius {
        RoundMonotone(t1 * 9.0 / 5.0 + 32.0, t2 * 9.0 / 5.0 + 32.0);
      } else {
        RoundMonotone((t1 - 32.0) * 5.0 / 9.0, (t2 - 32.0) * 5.0 / 9.0);
      }
    }
  }

  /** The Celsius range ends convert exactly to the Fahrenheit ones and back. */
  lemma RangeEndsCorrespond()
    ensures ConvertTemperature(-50.0, Celsius, Fahrenheit) == -58.0
    ensures ConvertTemperature(200.0, Celsius, Fahrenheit) == 392.0
    ensures ConvertTemperature(-58.0, Fahrenheit, Celsius) == -50.0
    ensures ConvertTemperature(392.0, Fahrenheit, Celsius) == 200.0
  {
    RoundUnique(-50.0 * 9.0 / 5.0 + 32.0, -58);
    RoundUnique(200.0 * 9.0 / 5.0 + 32.0, 392);
    RoundUnique((-58.0 - 32.0) * 5.0 / 9.0, -50);
    RoundUnique((392.0 - 32.0) * 5.0 / 9.0, 200);
  }

  /** A whole Celsius reading survives the trip to Fahrenheit and back. */
  lemma CelsiusRoundTrip(c: real)
    requires Integral(c)
    ensures ConvertTemperature(ConvertTemperature(c, Celsius, Fahrenheit), Fahrenheit, Celsius) == c
  {
    var f := ConvertTemperature(c, Celsius, Fahrenheit);
    var e := CelsiusToFahrenheit(c);
    assert f - 0.5 <= e < f + 0.5;
    var back := (f - 32.0) * 5.0 / 9.0;
    assert back - c == (f - e) * 5.0 / 9.0;
    RoundUnique(back, c.Floor);
  }

  /** A whole Fahrenheit reading need not: 33°F becomes 1°C, which becomes 34°F. */
  lemma FahrenheitRoundTripFails()
    ensures ConvertTemperature(33.0, Fahrenheit, Celsius) == 1.0
    ensures ConvertTemperature(1.0, Celsius, Fahrenheit) == 34.0
  {
    RoundUnique((33.0 - 32.0) * 5.0 / 9.0, 1);
    RoundUnique(1.0 * 9.0 / 5.0 + 32.0, 34);
  }

  /** `isValidTemperature`: -50 to 200 inclusive in Celsius, -58 to 392 otherwise. */
  predicate IsValidTemperature(t: real, unit: TemperatureUnit): (b: bool)
    ensures unit == Celsius ==> (b <==> -58.0 <= t * 9.0 / 5.0 + 32.0 <= 392.0)
  {
    if unit == Celsius then -50.0 <= t <= 200.0 else -58.0 <= t <= 392.0
  }

  /** A reading that is in range stays in range when converted either way. */
  lemma ConvertKeepsValid(t: real, from: TemperatureUnit, to: TemperatureUnit)
    requires IsValidTemperature(t, from)
    ensures IsValidTemperature(ConvertTemperature(t, from, to), to)
  {
    RangeEndsCorrespond();
    if from == Celsius {
      ConvertMonotone(-50.0, t, from, to);
      ConvertMonotone(t, 200.0, from, to);
    } else {
      ConvertMonotone(-58.0, t, from, to);
      ConvertMonotone(t, 392.0, from, to);
    }
  }

  /** The default settings are all within the Fahrenheit range. */
  lemma InitialSettingsValid()
    ensures var s := InitialTempSettings;
      IsValidTemperature(s.roomTemp, s.unit) && IsValidTemperature(s.flourTemp, s.unit)
      && IsValidTemperature(s.prefermentTemp, s.unit) && IsValidTemperature(s.waterTemp, s.unit)
      && IsValidTemperature(s.doughTemp, s.unit)
  {
  }

  function UnitAbbreviation(unit: TemperatureUnit): (a: string)
    ensures |a| == 2 && a[0] == '°'
    ensures a[1] == 'C' <==> unit == Celsius
  {
    if unit == Celsius then "°C" else "°F"
  }

  /** `formatTemperature` for a whole-number reading: its decimal digits
      followed by the unit's abbreviation. */
  function FormatTemperature(t: int, unit: TemperatureUnit): (s: string)
    ensures |s| >= 3
    ensures s[..|s| - 2] == Text.IntToString(t)
    ensures s[|s| - 2] == '°'
    ensures s[|s| - 1] == 'C' <==> unit == Celsius
  {
    var digits := Text.IntToString(t);
    var a := UnitAbbreviation(unit);
    assert (digits + a)[..|digits|] == digits;
    digits + a
  }

  /** The unit can be read back from the formatted text. */
  lemma FormatShowsUnit(t1: int, u1: TemperatureUnit, t2: int, u2: TemperatureUnit)
    requires FormatTemperature(t1, u1) == FormatTemperature(t2, u2)
    ensures u1 == u2
  {
    var s := FormatTemperature(t1, u1);
    assert s[|s| - 1] == 'C' <==> u1 == Celsius;
  }
}
