/** Decimal rounding as the pricing engine's `round` helper performs it
    (`Number.parseFloat(value.toFixed(digits))`), stated over exact reals.
    `toFixed` rounds the magnitude to the nearest multiple of 10^-digits and
    picks the larger magnitude on a tie, so the sign is applied afterwards. */
module Rounding {

  /** 10 raised to `d`, as a real. */
  function Pow10(d: nat): (p: real)
    ensures p >= 1.0
  {
    if d == 0 then 1.0 else 10.0 * Pow10(d - 1)
  }

  /** Number of whole units of 1/scale nearest to the magnitude `x`, ties up. */
  function Units(x: real, scale: real): int
  {
    (x * scale + 0.5).Floor
  }

  /** Rounding to the nearest multiple of 1/scale, ties away from zero. */
  function RoundAt(x: real, scale: real): real
    requires scale > 0.0
  {
    if x >= 0.0 then Units(x, scale) as real / scale
    else -(Units(-x, scale) as real / scale)
  }

  /** `round(value, digits)`: nearest multiple of 10^-digits, ties away from zero. */
  function Round(x: real, digits: nat): real
  {
    RoundAt(x, Pow10(digits))
  }

  /** `round(value)` with the helper's default of two digits: currency cents. */
  function Round2(x: real): real
  {
    Round(x, 2)
  }

  /** A value that rounding to `digits` leaves alone: an exact multiple of 10^-digits. */
  predicate IsRounded(x: real, digits: nat)
  {
    Round(x, digits) == x
  }

  lemma DivMono(a: real, b: real, p: real)
    requires a <= b && p > 0.0
    ensures a / p <= b / p
  {
    assert b / p - a / p == (b - a) / p;
  }

  lemma MulMono(a: real, b: real, p: real)
    requires a <= b && p >= 0.0
    ensures a * p <= b * p
  {
    assert b * p - a * p == (b - a) * p;
  }

  /** An error `e` scaled by `p` within `b` is itself within `b / p`. */
  lemma Unscale(e: real, p: real, b: real)
    requires p > 0.0 && e * p <= b
    ensures e <= b / p
  {
    assert (e * p) / p == e;
    DivMono(e * p, b, p);
  }

  lemma UnitsMono(x: real, y: real, scale: real)
    requires x <= y && scale > 0.0
    ensures Units(x, scale) <= Units(y, scale)
  {
    MulMono(x, y, scale);
  }

  lemma RoundAtSign(x: real, scale: real)
    requires scale > 0.0
    ensures x >= 0.0 ==> RoundAt(x, scale) >= 0.0
    ensures x <= 0.0 ==> RoundAt(x, scale) <= 0.0
  {
    var m := if x >= 0.0 then x else -x;
    MulMono(0.0, m, scale);
    UnitsMono(0.0, m, scale);
    DivMono(0.0, Units(m, scale) as real, scale);
  }

  lemma RoundAtMono(x: real, y: real, scale: real)
    requires x <= y && scale > 0.0
    ensures RoundAt(x, scale) <= RoundAt(y, scale)
  {
    if 0.0 <= x {
      UnitsMono(x, y, scale);
      DivMono(Units(x, scale) as real, Units(y, scale) as real, scale);
    } else if y < 0.0 {
      UnitsMono(-y, -x, scale);
      DivMono(Units(-y, scale) as real, Units(-x, scale) as real, scale);
    } else {
      RoundAtSign(x, scale);
      RoundAtSign(y, scale);
    }
  }

  lemma MagnitudeError(x: real, scale: real)
    requires x >= 0.0 && scale > 0.0
    ensures -0.5 / scale <= RoundAt(x, scale) - x <= 0.5 / scale
  {
    var n := Units(x, scale) as real;
    var q := n / scale;
    assert q * scale == n;
    assert (q - x) * scale == n - x * scale;
    Unscale(q - x, scale, 0.5);
    Unscale(x - q, scale, 0.5);
  }

  lemma RoundAtError(x: real, scale: real)
    requires scale > 0.0
    ensures -0.5 / scale <= RoundAt(x, scale) - x <= 0.5 / scale
  {
    if x >= 0.0 {
      MagnitudeError(x, scale);
    } else {
      MagnitudeError(-x, scale);
    }
  }

  lemma RoundAtUnits(n: int, scale: real)
    requires scale > 0.0
    ensures RoundAt(n as real / scale, scale) == n as real / scale
  {
    var x := n as real / scale;
    assert x * scale == n as real;
    if n >= 0 {
      DivMono(0.0, n as real, scale);
      assert Units(x, scale) == n;
    } else {
      DivMono(n as real, 0.0, scale);
      assert x != 0.0;
      assert -x * scale == (-n) as real;
      assert Units(-x, scale) == -n;
      assert (-n) as real / scale == -x;
    }
  }

  /** Rounding keeps the sign of its argument (zero may result from either side). */
  lemma RoundSign(x: real, d: nat)
    ensures x >= 0.0 ==> Round(x, d) >= 0.0
    ensures x <= 0.0 ==> Round(x, d) <= 0.0
  {
    RoundAtSign(x, Pow10(d));
  }

  /** Rounding never reverses the order of two values. */
  lemma RoundMonotone(x: real, y: real, d: nat)
    requires x <= y
    ensures Round(x, d) <= Round(y, d)
  {
    RoundAtMono(x, y, Pow10(d));
  }

  /** Rounding moves a value by at most half a unit of the last kept digit. */
  lemma RoundError(x: real, d: nat)
    ensures -0.5 / Pow10(d) <= Round(x, d) - x <= 0.5 / Pow10(d)
  {
    RoundAtError(x, Pow10(d));
  }

  /** An integer number of units of the last digit is already rounded. */
  lemma RoundOfUnits(n: int, d: nat)
    ensures IsRounded(n as real / Pow10(d), d)
  {
    RoundAtUnits(n, Pow10(d));
  }

  /** Rounding twice to the same number of digits is rounding once. */
  lemma RoundIdempotent(x: real, d: nat)
    ensures IsRounded(Round(x, d), d)
  {
    var p := Pow10(d);
    if x >= 0.0 {
      RoundAtUnits(Units(x, p), p);
    } else {
      var m := Units(-x, p);
      RoundAtUnits(-m, p);
      assert (-m) as real / p == -(m as real / p);
    }
  }

  /** A result of rounding to cents is in cents, and so is zero. */
  lemma Round2InCents(x: real)
    ensures IsRounded(Round2(x), 2)
    ensures IsRounded(0.0, 2)
  {
    RoundIdempotent(x, 2);
    RoundZero(2);
  }

  /** Rounding to cents moves a value by at most half a cent. */
  lemma Round2Error(x: real)
    ensures -0.005 <= Round2(x) - x <= 0.005
  {
    RoundError(x, 2);
    assert Pow10(2) == 100.0;
  }

  /** Rounding gives equal results on equal arguments. */
  lemma RoundEqual(x: real, y: real, d: nat)
    requires x == y
    ensures Round(x, d) == Round(y, d)
  {
  }

  /** Zero rounds to zero. */
  lemma RoundZero(d: nat)
    ensures Round(0.0, d) == 0.0
  {
  }
}
