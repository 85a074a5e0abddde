/** Helpers shared by the two pitch estimators: the IEEE-754 values they can meet and the
    RMS silence gate. */
module Samples {

  /** The values a Float32 slot or a JavaScript number takes in the estimators: a finite
      number, NaN (the result of 0 / 0) or +Infinity (the initial "minimum so far"). */
  datatype Float = Num(v: real) | NaN | PosInf

  /** JavaScript `a < b`; every comparison with NaN is false. */
  predicate Less(a: Float, b: Float)
  {
    a.Num? && (b.PosInf? || (b.Num? && a.v < b.v))
  }

  /** JavaScript `a > x` for a plain number `x`. */
  predicate Greater(a: Float, x: real)
  {
    a.PosInf? || (a.Num? && a.v > x)
  }

  /** Sum of the squares of the first `n` samples. */
  function SumSquares(buf: seq<real>, n: nat): (s: real)
    requires n <= |buf|
    ensures s >= 0.0
  {
    if n == 0 then 0.0 else SumSquares(buf, n - 1) + buf[n - 1] * buf[n - 1]
  }

  /** `Math.sqrt(sum / SIZE)`; for an empty buffer this is `sqrt(0 / 0)`, which is NaN. */
  function Rms(buf: seq<real>, sqrt: real -> real): Float
  {
    if |buf| == 0 then NaN else Num(sqrt(SumSquares(buf, |buf|) / |buf| as real))
  }

  const RmsFloor: real := 0.01

  /** The signal-presence gate `rms < 0.01`. It never fires on an empty buffer (NaN). */
  predicate Silence(buf: seq<real>, sqrt: real -> real)
  {
    Less(Rms(buf, sqrt), Num(RmsFloor))
  }

  /** The energy loop `for (i = 0; i < SIZE; i++) rms += buffer[i] * buffer[i]`. */
  method SumOfSquares(buffer: array<real>) returns (sum: real)
    ensures sum == SumSquares(buffer[..], buffer.Length)
  {
    sum := 0.0;
    for i := 0 to buffer.Length
      invariant sum == SumSquares(buffer[..], i)
    {
      sum := sum + buffer[i] * buffer[i];
    }
  }

  /** The gate as the estimators compute it from the energy sum. */
  method RmsOf(buffer: array<real>, sqrt: real -> real) returns (rms: Float)
    ensures rms == Rms(buffer[..], sqrt)
  {
    var sum := SumOfSquares(buffer);
    if buffer.Length == 0 {
      rms := NaN;
    } else {
      rms := Num(sqrt(sum / buffer.Length as real));
    }
  }
}
