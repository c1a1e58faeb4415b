/**
 * `Number(x.toFixed(digits))` on exact reals: the nearest multiple of
 * 10^-digits, ties going away from zero (toFixed rounds the magnitude and
 * keeps the sign).
 */
module Rounding {
  import Decimal

  function Abs(x: real): real { if x < 0.0 then -x else x }

  /** How many units of 10^-digits make one. */
  function Scale(digits: nat): (f: real)
    ensures f >= 1.0
  {
    Decimal.Pow10(digits) as real
  }

  /** Magnitude of `x` in units of 10^-digits, rounded half up. */
  function RoundedUnits(x: real, digits: nat): (m: int)
    ensures m >= 0
  {
    (Abs(x) * Scale(digits) + 0.5).Floor
  }

  /** `x` in units of 10^-digits, rounded half away from zero. */
  function SignedUnits(x: real, digits: nat): int {
    if x < 0.0 then -RoundedUnits(x, digits) else RoundedUnits(x, digits)
  }

  function Round(x: real, digits: nat): (r: real)
    ensures -0.5 <= (r - x) * Scale(digits) <= 0.5
    ensures x >= 0.0 ==> r >= 0.0
    ensures x <= 0.0 ==> r <= 0.0
  {
    var f := Scale(digits);
    var rounded := SignedUnits(x, digits) as real / f;
    assert rounded * f == SignedUnits(x, digits) as real;
    rounded
  }

  /** `v` has at most `digits` decimals: it is a whole number of units of 10^-digits. */
  predicate HasDigits(v: real, digits: nat) {
    (v * Scale(digits)).Floor as real == v * Scale(digits)
  }

  /** A rounded value has at most `digits` decimals. */
  lemma RoundHasDigits(x: real, digits: nat)
    ensures HasDigits(Round(x, digits), digits)
  {
    var f, r, units := Scale(digits), Round(x, digits), SignedUnits(x, digits);
    assert r * f == units as real;
    assert (units as real).Floor == units;
    assert (r * Scale(digits)).Floor == (r * f).Floor;
    assert HasDigits(r, digits);
  }

  /**
   * A value exactly half a unit of the last decimal from two neighbours
   * goes to the one farther from zero.
   */
  lemma RoundTiesAway(x: real, digits: nat)
    ensures (Round(x, digits) - x) * Scale(digits) == 0.5 ==> x > 0.0
    ensures (Round(x, digits) - x) * Scale(digits) == -0.5 ==> x < 0.0
  {
  }

  /** Rounding a value that is already rounded changes nothing. */
  lemma RoundIdempotent(x: real, digits: nat)
    ensures Round(Round(x, digits), digits) == Round(x, digits)
  {
    var f, m := Scale(digits), RoundedUnits(x, digits);
    var r := Round(x, digits);
    assert r == SignedUnits(x, digits) as real / f;
    assert Abs(r) == m as real / f;
    assert Abs(r) * f == m as real;
    assert RoundedUnits(r, digits) == m;
  }

  /** A value that is a whole number of units of 10^-digits is left as it is. */
  lemma RoundOnGrid(x: real, units: int, digits: nat)
    requires x * Scale(digits) == units as real
    ensures Round(x, digits) == x
  {
    var f := Scale(digits);
    if units < 0 {
      assert Abs(x) * f == (-units) as real;
      assert RoundedUnits(x, digits) == -units;
    } else {
      assert Abs(x) * f == units as real;
      assert RoundedUnits(x, digits) == units;
    }
    assert SignedUnits(x, digits) == units;
  }

  lemma ScaleMonotone(a: real, b: real, f: real)
    requires a <= b && f >= 0.0
    ensures a * f <= b * f
  {
  }

  lemma DivMonotone(a: real, b: real, f: real)
    requires a <= b && f > 0.0
    ensures a / f <= b / f
  {
    assert b / f - a / f == (b - a) / f;
  }

  lemma FloorMonotone(a: real, b: real)
    requires a <= b
    ensures a.Floor <= b.Floor
  {
  }

  lemma SignedUnitsMonotone(x: real, y: real, digits: nat)
    requires x <= y
    ensures SignedUnits(x, digits) <= SignedUnits(y, digits)
  {
    var f := Scale(digits);
    if 0.0 <= x {
      ScaleMonotone(Abs(x), Abs(y), f);
      FloorMonotone(Abs(x) * f + 0.5, Abs(y) * f + 0.5);
    } else if y < 0.0 {
      ScaleMonotone(Abs(y), Abs(x), f);
      FloorMonotone(Abs(y) * f + 0.5, Abs(x) * f + 0.5);
    }
  }

  /** Rounding preserves order. */
  lemma RoundMonotone(x: real, y: real, digits: nat)
    requires x <= y
    ensures Round(x, digits) <= Round(y, digits)
  {
    SignedUnitsMonotone(x, y, digits);
    DivMonotone(SignedUnits(x, digits) as real, SignedUnits(y, digits) as real, Scale(digits));
  }
}
