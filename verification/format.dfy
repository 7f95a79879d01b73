/**
 * `formatNumber` (script.js:35-40) and the three readouts `draw()` fills
 * with it (script.js:72-75). The characters that `toFixed(2)` and
 * number-to-string conversion print are not modelled: a readout keeps the
 * value its digits stand for and how they are printed.
 */
module Format {
  import opened JsMath
  import opened Inputs

  /** How the number of a readout is printed, with the value its digits stand for. */
  datatype Digits =
    | Fixed2(value: real)   // printed by `toFixed(2)`: a whole number of hundredths
    | Plain(value: real)    // printed in the number's own shortest form

  datatype Readout = Readout(digits: Digits, suffix: string)

  function Abs(x: real): real { if x < 0.0 then -x else x }

  /** `unit || ''`: a missing unit is the empty string. */
  function UnitText(unit: Option<string>): string {
    match unit
    case Some(u) => u
    case None => ""
  }

  /** True when `v` is a whole number of hundredths. */
  predicate IsHundredths(v: real) {
    (v * 100.0).Floor as real == v * 100.0
  }

  lemma HundredthsOf(n: int)
    ensures IsHundredths(n as real / 100.0)
  {
    assert (n as real / 100.0) * 100.0 == n as real;
  }

  /**
   * The value `v.toFixed(2)` prints: the whole number of hundredths nearest
   * `v`, a tie going away from zero (toFixed rounds the magnitude and puts
   * the sign back).
   */
  function ToFixed2(v: real): (t: real)
    ensures IsHundredths(t)
    ensures v >= 0.0 ==> v - 0.005 < t <= v + 0.005
    ensures v < 0.0 ==> v - 0.005 <= t < v + 0.005
  {
    if v >= 0.0 then
      HundredthsOf(Round(v * 100.0));
      Round(v * 100.0) as real / 100.0
    else
      HundredthsOf(-Round(-v * 100.0));
      assert -(Round(-v * 100.0) as real / 100.0) == (-Round(-v * 100.0)) as real / 100.0;
      -(Round(-v * 100.0) as real / 100.0)
  }

  /**
   * Values of magnitude 1000 or more are shown in thousands, to two
   * decimals, with " k" before the unit; smaller ones are rounded to the
   * nearest hundredth (a tie going up) and followed by a space and the unit.
   */
  function FormatNumber(x: real, unit: Option<string>): (r: Readout)
    ensures r.digits.Fixed2? <==> Abs(x) >= 1000.0
    ensures r.digits.Fixed2? ==>
              && IsHundredths(r.digits.value)
              && (x >= 0.0 ==> x / 1000.0 - 0.005 < r.digits.value <= x / 1000.0 + 0.005)
              && (x < 0.0 ==> x / 1000.0 - 0.005 <= r.digits.value < x / 1000.0 + 0.005)
              && r.suffix == " k" + UnitText(unit)
    ensures r.digits.Plain? ==>
              && IsHundredths(r.digits.value)
              && x - 0.005 < r.digits.value <= x + 0.005
              && r.suffix == " " + UnitText(unit)
  {
    if Abs(x) >= 1000.0 then
      Readout(Fixed2(ToFixed2(x / 1000.0)), " k" + UnitText(unit))
    else
      var n := Round(x * 100.0);
      HundredthsOf(n);
      Readout(Plain(n as real / 100.0), " " + UnitText(unit))
  }

  /** The value a readout stands for, undoing the thousands scaling. */
  function Shown(r: Readout): real {
    match r.digits
    case Fixed2(v) => v * 1000.0
    case Plain(v) => v
  }

  /**
   * A readout stands for a value within half a hundredth of `x` below 1000,
   * and within half a hundredth of a thousand, that is 5, from 1000 on.
   */
  lemma FormatCloseToValue(x: real, unit: Option<string>)
    ensures Abs(Shown(FormatNumber(x, unit)) - x) <= if Abs(x) >= 1000.0 then 5.0 else 0.005
  {
    var r := FormatNumber(x, unit);
    if r.digits.Fixed2? {
      var v := r.digits.value;
      assert -0.005 <= v - x / 1000.0 <= 0.005;
      assert v * 1000.0 - x == (v - x / 1000.0) * 1000.0;
    }
  }

  /** A value already a whole number of hundredths below 1000 is shown exactly. */
  lemma FormatExactOnHundredths(n: int, unit: Option<string>)
    requires -100000 < n < 100000
    ensures FormatNumber(n as real / 100.0, unit).digits == Plain(n as real / 100.0)
  {
    var x := n as real / 100.0;
    assert x * 100.0 == n as real;
    RoundInteger(n);
  }

  /**
   * The plain branch can still show 1000: 999.996 is below the threshold
   * but rounds to 1000 at two decimals.
   */
  lemma PlainCanShowThousand(unit: Option<string>)
    ensures FormatNumber(999.996, unit).digits == Plain(1000.0)
  {
    assert Round(999.996 * 100.0) == 100000;
  }

  /**
   * The worked values: 999.4, 1500 and -2000; and 1234.567, which the kilo
   * branch shows as 1.23 thousand, 4.567 below the value.
   */
  lemma FormatExamples()
    ensures FormatNumber(999.4, Some("Pa")) == Readout(Plain(999.4), " Pa")
    ensures FormatNumber(1500.0, Some("N")) == Readout(Fixed2(1.5), " kN")
    ensures FormatNumber(-2000.0, None) == Readout(Fixed2(-2.0), " k")
    ensures FormatNumber(1234.567, None) == Readout(Fixed2(1.23), " k")
  {
    assert Round(999.4 * 100.0) == 99940;
    assert Round(1.5 * 100.0) == 150;
    assert Round(2.0 * 100.0) == 200;
    assert Round(1.234567 * 100.0) == 123;
  }

  /** The three readouts of the results panel. */
  datatype Readouts = Readouts(baseP: Readout, force: Readout, yp: Readout)

  /**
   * script.js:72-75: base pressure and force are rounded to whole pascals
   * and newtons before formatting; the centre of pressure is formatted as is.
   */
  function ReadoutsOf(baseP: real, force: real, yp: real): (r: Readouts)
    ensures r == Readouts(FormatNumber(Round(baseP) as real, Some("Pa")),
                          FormatNumber(Round(force) as real, Some("N")),
                          FormatNumber(yp, Some("m")))
    ensures r.baseP.suffix == if Abs(Round(baseP) as real) >= 1000.0 then " kPa" else " Pa"
    ensures r.force.suffix == if Abs(Round(force) as real) >= 1000.0 then " kN" else " N"
    ensures r.yp.suffix == if Abs(yp) >= 1000.0 then " km" else " m"
    ensures r.baseP.digits.Plain? ==> r.baseP.digits.value == Round(baseP) as real
    ensures r.force.digits.Plain? ==> r.force.digits.value == Round(force) as real
    ensures Abs(Shown(r.baseP) - baseP) <= if r.baseP.digits.Fixed2? then 5.5 else 0.5
    ensures Abs(Shown(r.force) - force) <= if r.force.digits.Fixed2? then 5.5 else 0.5
    ensures Abs(Shown(r.yp) - yp) <= if r.yp.digits.Fixed2? then 5.0 else 0.005
  {
    var rp := FormatNumber(Round(baseP) as real, Some("Pa"));
    var rf := FormatNumber(Round(force) as real, Some("N"));
    assert " k" + "Pa" == " kPa" && " " + "Pa" == " Pa";
    assert " k" + "N" == " kN" && " " + "N" == " N";
    assert " k" + "m" == " km" && " " + "m" == " m";
    RoundedShown(baseP, Round(baseP), Some("Pa"));
    RoundedShown(force, Round(force), Some("N"));
    FormatCloseToValue(yp, Some("m"));
    Readouts(rp, rf, FormatNumber(yp, Some("m")))
  }

  /**
   * A value rounded to a whole number first: below 1000 the readout shows
   * that whole number exactly, within ½ of the value; from 1000 on it shows
   * it to the nearest ten, within 5.5 of the value.
   */
  lemma RoundedShown(x: real, n: int, unit: Option<string>)
    requires n == Round(x)
    ensures Abs(n as real) < 1000.0 ==> Shown(FormatNumber(n as real, unit)) == n as real
    ensures Abs(Shown(FormatNumber(n as real, unit)) - x)
            <= if Abs(n as real) >= 1000.0 then 5.5 else 0.5
  {
    FormatCloseToValue(n as real, unit);
    if Abs(n as real) < 1000.0 {
      FormatExactOnHundredths(n * 100, unit);
      assert (n * 100) as real / 100.0 == n as real;
    }
  }
}
