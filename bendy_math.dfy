/** The interpolation helpers of bendy/math.py. That file is not part of this
    model; these are the usual definitions, taken as assumptions about it. */
module BendyMath {

  /** `a` and `b` bound `v` on either side, inclusive. */
  predicate Between(v: real, a: real, b: real) {
    (a <= v <= b) || (b <= v <= a)
  }

  /** Linear interpolation: `a` at t = 0, `b` at t = 1. */
  function Lerp(a: real, b: real, t: real): real {
    a + (b - a) * t
  }

  lemma MulNonNegative(a: real, b: real)
    requires a >= 0.0 && b >= 0.0
    ensures a * b >= 0.0
  {
  }

  /** Every t in [0, 1] interpolates to a value between the two ends. */
  lemma LerpBetween(a: real, b: real, t: real)
    requires 0.0 <= t <= 1.0
    ensures Between(Lerp(a, b, t), a, b)
  {
    if a <= b {
      MulNonNegative(b - a, t);
      MulNonNegative(b - a, 1.0 - t);
      assert (b - a) * t + (b - a) * (1.0 - t) == b - a;
    } else {
      MulNonNegative(a - b, t);
      MulNonNegative(a - b, 1.0 - t);
      assert (a - b) * t + (a - b) * (1.0 - t) == a - b;
    }
  }

  /** A quotient of two same-signed values, the numerator smaller in size, lies in (0, 1). */
  lemma QuotientInUnit(num: real, den: real)
    requires (0.0 < num < den) || (den < num < 0.0)
    ensures 0.0 < num / den < 1.0
  {
    var q := num / den;
    assert q * den == num;
    if den > 0.0 {
      if q <= 0.0 { MulNonNegative(-q, den); }
      if q >= 1.0 { MulNonNegative(q - 1.0, den); }
    } else {
      if q <= 0.0 { MulNonNegative(-q, -den); }
      if q >= 1.0 { MulNonNegative(q - 1.0, -den); }
    }
  }

  /** The fraction of the way from `a` to `b` at which `v` lies; the inverse of
      Lerp. Dividing by zero is the caller's concern, as in Python. */
  function InverseLerp(a: real, b: real, v: real): (r: real)
    requires a != b
    ensures Lerp(a, b, r) == v
    ensures (a < v < b || b < v < a) ==> 0.0 < r < 1.0
  {
    var r := (v - a) / (b - a);
    assert (b - a) * r == v - a;
    if a < v < b || b < v < a then
      QuotientInUnit(v - a, b - a);
      r
    else
      r
  }
}
