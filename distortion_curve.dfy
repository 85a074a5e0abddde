/** The wave-shaping transfer curve of the drive and distortion stages and the cache that keeps one
    table per rounded amount. */
module DistortionCurve {
  import opened Numerics

  /** `Math.PI` as a double. */
  const Pi: real := 3.141592653589793
  const CurveSamples: nat := 8192

  /** Tables are cached under `Math.round(amount * 100)`. */
  function CurveKey(amount: real): (k: int)
    ensures amount * 100.0 - 0.5 < k as real <= amount * 100.0 + 0.5
  {
    Round(amount * 100.0)
  }

  /** The input level `x = 2i / 8192 - 1` that table slot `i` stands for. */
  function SamplePosition(i: int): real
  {
    (i * 2) as real / CurveSamples as real - 1.0
  }

  /** `((3 + k) * x * 20 * deg) / (PI + k * |x|)` with `k = amount * 300` and `deg = PI / 180`.
      The amount is a gain knob value, never negative, so the denominator is at least `PI`. */
  function CurveValue(amount: real, x: real): real
    requires amount >= 0.0
  {
    var deg := Pi / 180.0;
    var k := amount * 300.0;
    ProductNonnegative(k, Abs(x));
    ((3.0 + k) * x * 20.0 * deg) / (Pi + k * Abs(x))
  }

  /** The whole table for one amount. */
  function CurveTable(amount: real): (t: seq<real>)
    requires amount >= 0.0
    ensures |t| == CurveSamples
    ensures forall i :: 0 <= i < CurveSamples ==> t[i] == CurveValue(amount, SamplePosition(i))
  {
    seq(CurveSamples, i requires 0 <= i < CurveSamples => CurveValue(amount, SamplePosition(i)))
  }

  /** The slots cover `[-1, 1)` in strictly increasing order, with slot 4096 at 0. */
  lemma {:induction false} SamplePositionsIncrease(i: int, j: int)
    requires 0 <= i < j < CurveSamples
    ensures -1.0 <= SamplePosition(i) < SamplePosition(j) < 1.0
    ensures SamplePosition(CurveSamples / 2) == 0.0
  {
  }

  /** The numerator as a positive multiple of `x`; the denominator is positive for `amount >= 0`. */
  lemma {:induction false} CurveParts(amount: real, x: real)
    requires amount >= 0.0
    ensures CurveValue(amount, x) == ((3.0 + amount * 300.0) * (Pi / 9.0) * x) / (Pi + amount * 300.0 * Abs(x))
    ensures (3.0 + amount * 300.0) * (Pi / 9.0) > 0.0
    ensures Pi + amount * 300.0 * Abs(x) > 0.0
  {
    var k := amount * 300.0;
    assert (3.0 + k) * x * 20.0 * (Pi / 180.0) == (3.0 + k) * (Pi / 9.0) * x;
    ProductNonnegative(k, Abs(x));
    ProductPositive(3.0 + k, Pi / 9.0);
  }

  /** For a non-negative amount every entry has the sign of its input: the curve never inverts the
      signal, and silence maps to silence. */
  lemma {:induction false} CurveHasSignOfInput(amount: real, x: real)
    requires amount >= 0.0
    ensures x > 0.0 ==> CurveValue(amount, x) > 0.0
    ensures x < 0.0 ==> CurveValue(amount, x) < 0.0
    ensures x == 0.0 ==> CurveValue(amount, x) == 0.0
  {
    CurveParts(amount, x);
    var c := (3.0 + amount * 300.0) * (Pi / 9.0);
    var den := Pi + amount * 300.0 * Abs(x);
    if x > 0.0 {
      ProductPositive(c, x);
      QuotientPositive(c * x, den);
    } else if x < 0.0 {
      ProductPositive(c, -x);
      assert c * x == -(c * -x);
      QuotientNegative(c * x, den);
    }
  }

  /** The curve is odd: positive and negative half-waves are shaped alike. */
  lemma {:induction false} CurveIsOdd(amount: real, x: real)
    requires amount >= 0.0
    ensures CurveValue(amount, -x) == -CurveValue(amount, x)
  {
    CurveParts(amount, x);
    CurveParts(amount, -x);
    var c := (3.0 + amount * 300.0) * (Pi / 9.0);
    var den := Pi + amount * 300.0 * Abs(x);
    assert Abs(-x) == Abs(x);
    assert c * -x == -(c * x);
    NegatedQuotient(c * x, den);
  }

  lemma NegatedQuotient(a: real, b: real)
    requires b != 0.0
    ensures (-a) / b == -(a / b)
  {
  }

  /** On the input range `[-1, 1]` the shaped output stays strictly inside `(-1, 1)`. */
  lemma {:induction false} CurveBounded(amount: real, x: real)
    requires amount >= 0.0 && -1.0 <= x <= 1.0
    ensures -1.0 < CurveValue(amount, x) < 1.0
  {
    CurveParts(amount, x);
    NumeratorBelowDenominator(amount, x);
    QuotientBelowOne((3.0 + amount * 300.0) * (Pi / 9.0) * x, Pi + amount * 300.0 * Abs(x));
  }

  /** On `[-1, 1]` the numerator's magnitude `(PI/3)|x| + (PI/9) k|x|` stays below `PI + k|x|`. */
  lemma NumeratorBelowDenominator(amount: real, x: real)
    requires amount >= 0.0 && -1.0 <= x <= 1.0
    ensures Abs((3.0 + amount * 300.0) * (Pi / 9.0) * x) < Pi + amount * 300.0 * Abs(x)
  {
    var k := amount * 300.0;
    var c := (3.0 + k) * (Pi / 9.0);
    var a := Abs(x);
    ProductNonnegative(k, a);
    var m := k * a;
    assert c * a == a * (Pi / 3.0) + m * (Pi / 9.0);
    assert a * (Pi / 3.0) <= Pi / 3.0;
    assert m * (Pi / 9.0) <= m;
    ProductNonnegative(3.0 + k, Pi / 9.0);
    AbsOfScaled(c, x);
  }

  lemma QuotientBelowOne(a: real, b: real)
    requires b > 0.0 && Abs(a) < b
    ensures -1.0 < a / b < 1.0
  {
    var q := a / b;
    assert q * b == a;
    if q >= 1.0 {
      ProductNonnegative(q - 1.0, b);
    } else if q <= -1.0 {
      ProductNonnegative(-1.0 - q, b);
    }
  }

  /** The module-level `curveCache`: a map from key to table that only ever grows. */
  class CurveCache {
    var entries: map<int, array<real>>
    /** The amount each table was first computed for. */
    ghost var amounts: map<int, real>

    /** Every cached table is the full curve of an amount whose key it is stored under. */
    ghost predicate Valid()
      reads this, entries.Values
    {
      && entries.Keys == amounts.Keys
      && forall k :: k in entries ==>
           amounts[k] >= 0.0 && CurveKey(amounts[k]) == k && entries[k][..] == CurveTable(amounts[k])
    }

    constructor ()
      ensures Valid() && entries == map[]
    {
      entries := map[];
      amounts := map[];
    }

    /** The table-filling loop of `makeDistortionCurve`. */
    static method FillCurve(amount: real) returns (curve: array<real>)
      requires amount >= 0.0
      ensures fresh(curve)
      ensures curve[..] == CurveTable(amount)
    {
      curve := new real[CurveSamples];
      for i := 0 to CurveSamples
        invariant forall j :: 0 <= j < i ==> curve[j] == CurveValue(amount, SamplePosition(j))
      {
        var x := SamplePosition(i);
        curve[i] := CurveValue(amount, x);
      }
    }

    /** `makeDistortionCurve(amount)`: the cached table for the key when there is one (the very same
        array), otherwise a freshly filled table that is then cached. */
    method MakeDistortionCurve(amount: real) returns (curve: array<real>)
      requires Valid() && amount >= 0.0
      modifies this
      ensures Valid()
      ensures CurveKey(amount) in entries && curve == entries[CurveKey(amount)]
      ensures CurveKey(amount) in old(entries) ==> entries == old(entries) && amounts == old(amounts)
      ensures CurveKey(amount) !in old(entries) ==>
                && fresh(curve) && curve[..] == CurveTable(amount)
                && entries == old(entries)[CurveKey(amount) := curve]
    {
      var key := CurveKey(amount);
      if key in entries {
        return entries[key];
      }
      curve := FillCurve(amount);
      entries := entries[key := curve];
      amounts := amounts[key := amount];
    }
  }
}
