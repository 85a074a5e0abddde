/** The autocorrelation pitch estimator: RMS gate, trimming to the first quiet samples at either
    end, the autocorrelation over half the buffer, the first strict local maximum in the guitar
    lag window, and parabolic refinement of that peak. */
module AutoCorrelation {
  import opened Numerics
  import opened Samples

  const TrimThreshold: real := 0.2
  /** The lag window is `[floor(sampleRate / 2000), floor(sampleRate / 50))`. */
  const MaxFrequencyHz: real := 2000.0
  const MinFrequencyHz: real := 50.0

  /** The first index `i`, from `from` on and below `SIZE / 2`, whose sample is quiet. */
  function FirstQuiet(buf: seq<real>, from: nat): (r: Option<nat>)
    decreases |buf| - from
    ensures r.Some? ==>
              && from <= r.value && 2 * r.value < |buf| && Abs(buf[r.value]) < TrimThreshold
              && forall j :: from <= j < r.value ==> Abs(buf[j]) >= TrimThreshold
    ensures r.None? ==> forall j :: from <= j && 2 * j < |buf| ==> Abs(buf[j]) >= TrimThreshold
  {
    if 2 * from < |buf| then
      if Abs(buf[from]) < TrimThreshold then Some(from) else FirstQuiet(buf, from + 1)
    else None
  }

  /** `buffer[SIZE - i]`. */
  function FromEnd(buf: seq<real>, i: nat): real
    requires 1 <= i <= |buf|
  {
    buf[|buf| - i]
  }

  /** The first offset `i >= from` from the end, below `SIZE / 2`, whose sample `buf[SIZE - i]` is quiet. */
  function LastQuiet(buf: seq<real>, from: nat): (r: Option<nat>)
    requires from >= 1
    decreases |buf| - from
    ensures r.Some? ==>
              && from <= r.value && 2 * r.value < |buf| && Abs(FromEnd(buf, r.value)) < TrimThreshold
              && forall j :: from <= j < r.value ==> Abs(FromEnd(buf, j)) >= TrimThreshold
    ensures r.None? ==> forall j :: from <= j && 2 * j < |buf| ==> Abs(FromEnd(buf, j)) >= TrimThreshold
  {
    if 2 * from < |buf| then
      if Abs(FromEnd(buf, from)) < TrimThreshold then Some(from) else LastQuiet(buf, from + 1)
    else None
  }

  /** `r1`: the first quiet sample in the first half, 0 if there is none. */
  function TrimStart(buf: seq<real>): nat
  {
    match FirstQuiet(buf, 0)
    case Some(i) => i
    case None => 0
  }

  /** `r2`: the last quiet sample in the second half (index 0 excluded), `SIZE - 1` if there is none. */
  function TrimEnd(buf: seq<real>): int
  {
    match LastQuiet(buf, 1)
    case Some(i) => |buf| - i
    case None => |buf| - 1
  }

  /** `buffer.slice(r1, r2)`. */
  function Trimmed(buf: seq<real>): (t: seq<real>)
    ensures |buf| > 0 ==> 0 <= TrimStart(buf) <= TrimEnd(buf) < |buf| && t == buf[TrimStart(buf)..TrimEnd(buf)]
    ensures |buf| == 0 ==> t == []
  {
    if |buf| == 0 then []
    else buf[TrimStart(buf)..TrimEnd(buf)]
  }

  /** The first `n` products `t[i] * t[i + lag]` summed. */
  function CorrPrefix(t: seq<real>, lag: nat, n: nat): real
    requires n + lag <= |t|
  {
    if n == 0 then 0.0 else CorrPrefix(t, lag, n - 1) + t[n - 1] * t[n - 1 + lag]
  }

  /** The autocorrelation at `lag`: the inner loop runs `trimmedSize - lag` times (no times when the
      lag is not smaller than the trimmed length). */
  function Correlation(t: seq<real>, lag: nat): real
  {
    if lag < |t| then CorrPrefix(t, lag, |t| - lag) else 0.0
  }

  function CorrelationTable(t: seq<real>, n: nat): (c: seq<real>)
    ensures |c| == n && forall lag :: 0 <= lag < n ==> c[lag] == Correlation(t, lag)
  {
    seq(n, lag requires 0 <= lag < n => Correlation(t, lag))
  }

  /** Is `c[i]` strictly above both neighbours? At `i = 0` the left neighbour is `undefined`, and a
      comparison with `undefined` is false. */
  predicate IsPeak(c: seq<real>, i: nat)
    requires i + 1 < |c|
  {
    i >= 1 && c[i] > c[i - 1] && c[i] > c[i + 1]
  }

  /** The first peak with `from <= i < hi`. */
  function FirstPeak(c: seq<real>, from: nat, hi: int): (r: Option<nat>)
    requires hi < |c|
    decreases hi - from
    ensures r.Some? ==>
              && from <= r.value < hi && IsPeak(c, r.value)
              && forall j :: from <= j < r.value ==> !IsPeak(c, j)
    ensures r.None? ==> forall j :: from <= j < hi ==> !IsPeak(c, j)
  {
    if from < hi then
      if IsPeak(c, from) then Some(from) else FirstPeak(c, from + 1, hi)
    else None
  }

  function MinPeriod(sampleRate: real): nat
    requires sampleRate > 0.0
  {
    (sampleRate / MaxFrequencyHz).Floor
  }

  function MaxPeriod(sampleRate: real): int
  {
    (sampleRate / MinFrequencyHz).Floor
  }

  /** The lag of the first correlation peak, or `None` when the signal is too quiet, the trimmed
      buffer is shorter than two samples, or no peak lies in the lag window. */
  function AutoPeak(buf: seq<real>, sampleRate: real, sqrt: real -> real): (r: Option<nat>)
    requires sampleRate > 0.0
    ensures r.Some? ==>
              var c := CorrelationTable(Trimmed(buf), |buf| / 2);
              && MinPeriod(sampleRate) <= r.value < MaxPeriod(sampleRate)
              && r.value < LagWindowEnd(sampleRate, |c|)
              && r.value + 1 < |c| && IsPeak(c, r.value)
              && forall j :: MinPeriod(sampleRate) <= j < r.value ==> !IsPeak(c, j)
    ensures r.None? <==>
              || Silence(buf, sqrt) || |Trimmed(buf)| < 2
              || var c := CorrelationTable(Trimmed(buf), |buf| / 2);
                 forall j :: MinPeriod(sampleRate) <= j < LagWindowEnd(sampleRate, |c|) ==> !IsPeak(c, j)
  {
    if Silence(buf, sqrt) || |Trimmed(buf)| < 2 then None
    else
      var c := CorrelationTable(Trimmed(buf), |buf| / 2);
      FirstPeak(c, MinPeriod(sampleRate), LagWindowEnd(sampleRate, |c|))
  }

  function MinInt(a: int, b: int): (r: int)
    ensures r <= a && r <= b && (r == a || r == b)
  {
    if a <= b then a else b
  }

  /** The vertex offset `-b / (2a)` of the parabola through three points, 0 when it is flat. */
  function Shift(y1: real, y2: real, y3: real): (x: real)
    ensures var a := (y1 + y3 - 2.0 * y2) / 2.0;
            var b := (y3 - y1) / 2.0;
            a != 0.0 ==> 2.0 * a * x + b == 0.0
  {
    var a := (y1 + y3 - 2.0 * y2) / 2.0;
    var b := (y3 - y1) / 2.0;
    if a != 0.0 then -b / (2.0 * a) else 0.0
  }

  /** At a strict local maximum the parabola opens downwards and its vertex lies strictly within
      half a lag of the peak. */
  lemma {:induction false} ShiftWithinHalfLag(y1: real, y2: real, y3: real)
    requires y2 > y1 && y2 > y3
    ensures -0.5 < Shift(y1, y2, y3) < 0.5
  {
    var a := (y1 + y3 - 2.0 * y2) / 2.0;
    var b := (y3 - y1) / 2.0;
    var w := -2.0 * a;
    assert w > 0.0;
    assert -w / 2.0 < b < w / 2.0;
    assert -b / (2.0 * a) == b / w;
    QuotientBelowHalf(b, w);
    QuotientBelowHalf(-b, w);
  }

  lemma QuotientBelowHalf(b: real, w: real)
    requires w > 0.0 && b < w / 2.0
    ensures b / w < 0.5
  {
    var q := b / w;
    assert q * w == b;
  }

  /** `autoCorrelate`: the sample rate over the refined peak lag, or -1. */
  function AutoCorrelate(buf: seq<real>, sampleRate: real, sqrt: real -> real): (r: real)
    requires sampleRate > 0.0
    ensures r == -1.0 || r > 0.0
    ensures r > 0.0 <==> AutoPeak(buf, sampleRate, sqrt).Some?
    ensures r > 0.0 ==> r == sampleRate / RefinedLag(buf, sampleRate, sqrt, AutoPeak(buf, sampleRate, sqrt).value)
  {
    match AutoPeak(buf, sampleRate, sqrt)
    case None => -1.0
    case Some(p) =>
      var refined := RefinedLag(buf, sampleRate, sqrt, p);
      ReciprocalOfRate(sampleRate, refined);
      sampleRate / refined
  }

  /** The interpolated lag `peakIndex + shift` around the peak the estimator found. */
  function RefinedLag(buf: seq<real>, sampleRate: real, sqrt: real -> real, p: nat): (lag: real)
    requires sampleRate > 0.0 && AutoPeak(buf, sampleRate, sqrt) == Some(p)
    ensures p as real - 0.5 < lag < p as real + 0.5
    ensures lag > 0.0
  {
    var c := CorrelationTable(Trimmed(buf), |buf| / 2);
    ShiftWithinHalfLag(c[p - 1], c[p], c[p + 1]);
    p as real + Shift(c[p - 1], c[p], c[p + 1])
  }

  /** An accepted autocorrelation estimate is the sample rate over a lag within half a sample of
      the correlation peak: the period the estimate stands for is never more than half a lag off. */
  lemma {:induction false} EstimateNearPeak(buf: seq<real>, sampleRate: real, sqrt: real -> real)
    requires sampleRate > 0.0 && AutoCorrelate(buf, sampleRate, sqrt) > 0.0
    ensures var p := AutoPeak(buf, sampleRate, sqrt).value;
            p as real - 0.5 < sampleRate / AutoCorrelate(buf, sampleRate, sqrt) < p as real + 0.5
  {
    var p := AutoPeak(buf, sampleRate, sqrt).value;
    var refined := RefinedLag(buf, sampleRate, sqrt, p);
    ReciprocalOfRate(sampleRate, refined);
  }

  lemma ReciprocalOfRate(s: real, x: real)
    requires s > 0.0 && x > 0.0
    ensures s / x > 0.0 && s / (s / x) == x
  {
    var q := s / x;
    assert q * x == s;
    assert q > 0.0;
    assert s / q * q == s;
  }

  /** The two trimming loops, each stopping at its first quiet sample. */
  method TrimBounds(buffer: array<real>) returns (r1: nat, r2: int)
    ensures r1 == TrimStart(buffer[..]) && r2 == TrimEnd(buffer[..])
  {
    var size := buffer.Length;
    r1 := 0;
    r2 := size - 1;
    var i := 0;
    while 2 * i < size
      invariant FirstQuiet(buffer[..], 0) == FirstQuiet(buffer[..], i)
      decreases size - i
    {
      if Abs(buffer[i]) < TrimThreshold {
        r1 := i;
        break;
      }
      i := i + 1;
    }
    i := 1;
    while 2 * i < size
      invariant i >= 1
      invariant LastQuiet(buffer[..], 1) == LastQuiet(buffer[..], i)
      decreases size - i
    {
      if Abs(buffer[size - i]) < TrimThreshold {
        r2 := size - i;
        break;
      }
      i := i + 1;
    }
  }

  /** The inner correlation loop at one lag. */
  method CorrelationAt(t: seq<real>, lag: nat) returns (correlation: real)
    ensures correlation == Correlation(t, lag)
  {
    correlation := 0.0;
    var i := 0;
    while i < |t| - lag
      invariant 0 <= i && (lag < |t| ==> i <= |t| - lag)
      invariant correlation == (if lag < |t| then CorrPrefix(t, lag, i) else 0.0)
      decreases |t| - lag - i
    {
      correlation := correlation + t[i] * t[i + lag];
      i := i + 1;
    }
  }

  /** The correlation array `correlations[lag]` for `lag < MAX_SAMPLES`. */
  method Correlations(t: seq<real>, maxSamples: nat) returns (c: array<real>)
    ensures fresh(c)
    ensures c[..] == CorrelationTable(t, maxSamples)
  {
    c := new real[maxSamples];
    for lag := 0 to maxSamples
      invariant forall k :: 0 <= k < lag ==> c[k] == Correlation(t, k)
    {
      c[lag] := CorrelationAt(t, lag);
    }
  }

  /** The peak loop: the first `i` in `[from, hi)` above both neighbours, or -1. The source's
      `!foundPeak || ...` test is always true at the first hit, which is then taken. */
  method PeakSearch(c: array<real>, from: nat, hi: int) returns (peakIndex: int)
    requires hi < c.Length
    ensures peakIndex == match FirstPeak(c[..], from, hi) case Some(p) => p case None => -1
  {
    peakIndex := -1;
    var i := from;
    while i < hi
      invariant from <= i
      invariant FirstPeak(c[..], from, hi) == FirstPeak(c[..], i, hi)
      decreases hi - i
    {
      if i >= 1 && c[i] > c[i - 1] && c[i] > c[i + 1] {
        assert IsPeak(c[..], i);
        peakIndex := i;
        return;
      }
      i := i + 1;
    }
  }

  /** The lag window of the peak search for a trimmed buffer and `MAX_SAMPLES` lags. */
  function LagWindowEnd(sampleRate: real, maxSamples: nat): int
  {
    MinInt(MaxPeriod(sampleRate), maxSamples - 1)
  }

  /** The correlations of the trimmed buffer and the first peak among them (or -1). */
  method CorrelationPeak(trimmed: seq<real>, maxSamples: nat, sampleRate: real)
    returns (correlations: array<real>, peakIndex: int)
    requires sampleRate > 0.0
    ensures correlations[..] == CorrelationTable(trimmed, maxSamples)
    ensures peakIndex == match FirstPeak(correlations[..], MinPeriod(sampleRate), LagWindowEnd(sampleRate, maxSamples))
                         case Some(p) => p case None => -1
  {
    correlations := Correlations(trimmed, maxSamples);
    var minPeriod := MinPeriod(sampleRate);
    var maxPeriod := MaxPeriod(sampleRate);
    peakIndex := PeakSearch(correlations, minPeriod, MinInt(maxPeriod, maxSamples - 1));
  }

  /** `autoCorrelate`. */
  method AutoCorrelateSamples(buffer: array<real>, sampleRate: real, sqrt: real -> real) returns (r: real)
    requires sampleRate > 0.0
    ensures r == AutoCorrelate(buffer[..], sampleRate, sqrt)
  {
    var size := buffer.Length;
    var maxSamples := size / 2;
    var rms := RmsOf(buffer, sqrt);
    if Less(rms, Num(RmsFloor)) {
      return -1.0;
    }
    var r1, r2 := TrimBounds(buffer);
    var trimmed: seq<real> := if size == 0 then [] else buffer[r1..r2];
    if |trimmed| < 2 {
      return -1.0;
    }
    var correlations, peakIndex := CorrelationPeak(trimmed, maxSamples, sampleRate);
    if peakIndex == -1 {
      return -1.0;
    }
    assert AutoPeak(buffer[..], sampleRate, sqrt) == Some(peakIndex);
    ghost var c := CorrelationTable(Trimmed(buffer[..]), size / 2);
    assert correlations[..] == c;
    var refinedPeakIndex := RefinedPeakIndex(correlations, peakIndex);
    assert refinedPeakIndex == peakIndex as real + Shift(c[peakIndex - 1], c[peakIndex], c[peakIndex + 1]);
    assert refinedPeakIndex == RefinedLag(buffer[..], sampleRate, sqrt, peakIndex);
    assert AutoCorrelate(buffer[..], sampleRate, sqrt) == sampleRate / refinedPeakIndex;
    return sampleRate / refinedPeakIndex;
  }

  /** Parabolic interpolation around `peakIndex`. */
  method RefinedPeakIndex(correlations: array<real>, peakIndex: nat) returns (refined: real)
    requires 1 <= peakIndex && peakIndex + 1 < correlations.Length
    ensures refined == peakIndex as real
                       + Shift(correlations[peakIndex - 1], correlations[peakIndex], correlations[peakIndex + 1])
  {
    var y1 := correlations[peakIndex - 1];
    var y2 := correlations[peakIndex];
    var y3 := correlations[peakIndex + 1];
    var a := (y1 + y3 - 2.0 * y2) / 2.0;
    var b := (y3 - y1) / 2.0;
    var shift := 0.0;
    if a != 0.0 {
      shift := -b / (2.0 * a);
    }
    refined := peakIndex as real + shift;
  }
}
