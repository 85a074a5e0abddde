/** Exact models of the few JavaScript number operations the core relies on.
    Numbers are mathematical reals; floating-point rounding is not modelled. */
module Numerics {

  datatype Option<T> = None | Some(value: T)

  /** `Math.round`: rounds half-way cases towards +infinity. */
  function Round(x: real): (r: int)
    ensures x - 0.5 < r as real <= x + 0.5
  {
    (x + 0.5).Floor
  }

  /** JavaScript's `%` on integers: truncating, the result takes the sign of the dividend. */
  function JsRem(a: int, b: int): (r: int)
    requires b > 0
    ensures -b < r < b
    ensures a >= 0 ==> 0 <= r
    ensures a < 0 ==> r <= 0
  {
    if a >= 0 then a % b else -((-a) % b)
  }

  function Abs(x: real): (r: real)
    ensures r >= 0.0 && (r == x || r == -x)
  {
    if x < 0.0 then -x else x
  }

  /** `Math.min` and `Math.max` on two reals. */
  function MinR(a: real, b: real): (r: real)
    ensures r <= a && r <= b && (r == a || r == b)
  {
    if a <= b then a else b
  }

  function MaxR(a: real, b: real): (r: real)
    ensures r >= a && r >= b && (r == a || r == b)
  {
    if a >= b then a else b
  }

  /** `Math.max(lo, Math.min(hi, x))`, the clamp used by every control and meter. */
  function Clamp(lo: real, hi: real, x: real): (r: real)
    ensures r >= lo
    ensures lo <= hi ==> r <= hi
    ensures lo <= x <= hi ==> r == x
    ensures lo <= hi && x < lo ==> r == lo
    ensures lo <= hi && x > hi ==> r == hi
  {
    MaxR(lo, MinR(hi, x))
  }

  lemma {:induction false} ClampMonotone(lo: real, hi: real, x: real, y: real)
    requires x <= y
    ensures Clamp(lo, hi, x) <= Clamp(lo, hi, y)
  {
  }

  /** Sign facts for products and quotients, stated once so that callers need not reason
      about non-linear terms. */
  lemma ProductNonnegative(a: real, b: real)
    requires a >= 0.0 && b >= 0.0
    ensures a * b >= 0.0
  {
  }

  lemma QuotientNonnegative(a: real, b: real)
    requires a >= 0.0 && b > 0.0
    ensures a / b >= 0.0
  {
  }

  lemma ProductQuotientCancels(x: real, t: real)
    requires x != 0.0
    ensures x * t / x == t
  {
  }

  lemma ProductPositive(a: real, b: real)
    requires a > 0.0 && b > 0.0
    ensures a * b > 0.0
  {
  }

  lemma QuotientPositive(a: real, b: real)
    requires a > 0.0 && b > 0.0
    ensures a / b > 0.0
  {
  }

  lemma QuotientNegative(a: real, b: real)
    requires a < 0.0 && b > 0.0
    ensures a / b < 0.0
  {
  }

  lemma AbsOfScaled(c: real, x: real)
    requires c >= 0.0
    ensures Abs(c * x) == c * Abs(x)
  {
    if x >= 0.0 {
      ProductNonnegative(c, x);
    } else {
      ProductNonnegative(c, -x);
      assert c * x == -(c * -x);
    }
  }

  /** Quotients by the same divisor subtract as their dividends do. */
  lemma QuotientDifference(a: real, b: real, d: real)
    requires d != 0.0
    ensures a / d - b / d == (a - b) / d
  {
    assert (a / d) * d == a && (b / d) * d == b;
    assert (a / d - b / d) * d == a - b;
  }

  lemma SelfQuotient(d: real)
    requires d != 0.0
    ensures d / d == 1.0 && 0.0 / d == 0.0
  {
  }

  /** A positive quotient is 1 exactly when the two operands agree. */
  lemma QuotientIsOne(a: real, b: real)
    requires b > 0.0
    ensures a > 0.0 ==> a / b > 0.0 && (a / b == 1.0 <==> a == b)
  {
    if a > 0.0 {
      var q := a / b;
      assert q * b == a;
    }
  }

  /** On a proper range an in-range value lies at a fraction between 0 and 1 of it. */
  lemma FractionOfRange(value: real, min: real, max: real)
    requires min != max
    ensures min < max && min <= value <= max ==> 0.0 <= (value - min) / (max - min) <= 1.0
  {
    if min < max && min <= value <= max {
      var d := max - min;
      SelfQuotient(d);
      QuotientNonnegative(value - min, d);
      QuotientDifference(max - min, value - min, d);
      QuotientNonnegative(max - value, d);
    }
  }
}
