/** The YIN fundamental-frequency estimator: difference function, cumulative mean normalised
    difference (CMND), absolute threshold with descent to the local minimum, global-minimum
    fallback, parabolic refinement and the guitar range gate. */
module YinDetector {
  import opened Numerics
  import opened Samples

  /** A raw estimate `{frequency, clarity}`; `NoPitch` is the rejection `{-1, 0}`. */
  datatype Estimate = Estimate(frequency: real, clarity: real)

  const NoPitch: Estimate := Estimate(-1.0, 0.0)

  const Threshold: real := 0.1
  const MaxFallbackDip: real := 0.5
  const FlatDenominator: real := 0.0000000001
  const MinGuitarHz: real := 60.0
  const MaxGuitarHz: real := 1500.0

  function Half(buf: seq<real>): nat
  {
    |buf| / 2
  }

  /** The first `n` terms of the difference function at lag `tau`: sum of `(x[i] - x[i + tau])^2`. */
  function DiffPrefix(buf: seq<real>, tau: nat, n: nat): (s: real)
    requires n + tau <= |buf|
    ensures s >= 0.0
  {
    if n == 0 then 0.0
    else
      var delta := buf[n - 1] - buf[n - 1 + tau];
      DiffPrefix(buf, tau, n - 1) + delta * delta
  }

  /** The difference function `d(tau)` over a window of half the buffer. */
  function Diff(buf: seq<real>, tau: nat): real
    requires tau < Half(buf)
  {
    DiffPrefix(buf, tau, Half(buf))
  }

  /** `d(1) + ... + d(tau)`, the running sum of the normalisation. */
  function RunningSum(buf: seq<real>, tau: nat): (s: real)
    requires tau < Half(buf)
    ensures s >= 0.0
  {
    if tau == 0 then 0.0 else RunningSum(buf, tau - 1) + Diff(buf, tau)
  }

  /** The CMND slot `d'(tau)`: 1 at lag 0, `d(tau) * tau / runningSum` after it, and NaN (0 / 0)
      while every difference so far is zero. */
  function Cmnd(buf: seq<real>, tau: nat): (r: Float)
    requires tau < Half(buf)
    ensures !r.PosInf?
    ensures tau > 0 ==> (r.NaN? <==> RunningSum(buf, tau) == 0.0)
    ensures r.Num? ==> r.v >= 0.0
  {
    if tau == 0 then Num(1.0)
    else
      var s := RunningSum(buf, tau);
      if s == 0.0 then NaN
      else
        var x := Diff(buf, tau);
        ProductNonnegative(x, tau as real);
        QuotientNonnegative(x * tau as real, s);
        Num(x * tau as real / s)
  }

  /** The whole CMND buffer of length `floor(SIZE / 2)`. */
  function CmndBuffer(buf: seq<real>): (d: seq<Float>)
    ensures |d| == Half(buf)
    ensures forall t :: 0 <= t < |d| ==> d[t] == Cmnd(buf, t)
  {
    seq(Half(buf), t requires 0 <= t < Half(buf) => Cmnd(buf, t))
  }

  /** The first lag from `tau` on, short of the last slot, whose CMND value is below the threshold. */
  function FirstDip(d: seq<Float>, tau: nat): (r: Option<nat>)
    decreases |d| - tau
    ensures r.Some? ==>
              && tau <= r.value && r.value + 1 < |d|
              && Less(d[r.value], Num(Threshold))
              && forall j :: tau <= j < r.value ==> !Less(d[j], Num(Threshold))
    ensures r.None? ==> forall j :: tau <= j && j + 1 < |d| ==> !Less(d[j], Num(Threshold))
  {
    if tau + 1 < |d| then
      if Less(d[tau], Num(Threshold)) then Some(tau) else FirstDip(d, tau + 1)
    else None
  }

  /** Walking down from `tau` while the next slot is strictly smaller: stops at a local minimum
      (or at the last slot). */
  function Descend(d: seq<Float>, tau: nat): (r: nat)
    requires tau < |d|
    decreases |d| - tau
    ensures tau <= r < |d|
    ensures forall j :: tau <= j < r ==> Less(d[j + 1], d[j])
    ensures r + 1 < |d| ==> !Less(d[r + 1], d[r])
    ensures d[tau].Num? ==> d[r].Num? && d[r].v <= d[tau].v
  {
    if tau + 1 < |d| && Less(d[tau + 1], d[tau]) then Descend(d, tau + 1) else tau
  }

  /** Where the threshold loop leaves `tau`: the bottom of the descent from the first dip, or
      `max(2, HALF - 1)` when there is no dip. */
  function SearchEnd(d: seq<Float>): nat
  {
    match FirstDip(d, 2)
    case Some(k) => Descend(d, k)
    case None => if |d| > 3 then |d| - 1 else 2
  }

  /** The fallback scan `if (d[i] < minVal) { minVal = d[i]; minTau = i }` from slot `i` on. */
  function MinScan(d: seq<Float>, i: nat, minVal: Float, minTau: nat): (r: (Float, nat))
    requires !minVal.NaN? && minTau <= i
    decreases |d| - i
    ensures !r.0.NaN?
    ensures r == (minVal, minTau) || (i <= r.1 < |d| && d[r.1] == r.0 && Less(r.0, minVal))
    ensures forall j :: i <= j < |d| ==> !Less(d[j], r.0)
    ensures forall j :: i <= j < r.1 ==> !d[j].Num? || Less(r.0, d[j])
  {
    if i < |d| then
      if Less(d[i], minVal) then MinScan(d, i + 1, d[i], i) else MinScan(d, i + 1, minVal, minTau)
    else (minVal, minTau)
  }

  /** The lag the estimator settles on, or `None` when the fallback minimum exceeds 0.5. */
  function YinLag(d: seq<Float>): (r: Option<nat>)
    ensures r.Some? ==> 2 <= r.value < |d| && d[r.value].Num? && d[r.value].v <= MaxFallbackDip
    ensures SearchEnd(d) + 1 < |d| ==>
              && r == Some(SearchEnd(d))
              && d[r.value].v < Threshold && !Less(d[r.value + 1], d[r.value])
    ensures SearchEnd(d) + 1 >= |d| ==>
              && (r.None? <==> Greater(MinScan(d, 2, PosInf, 2).0, MaxFallbackDip))
              && (r.Some? ==> r.value == MinScan(d, 2, PosInf, 2).1 && forall j :: 2 <= j < |d| ==> !Less(d[j], d[r.value]))
    ensures r.None? <==> forall j :: 2 <= j < |d| ==> !d[j].Num? || d[j].v > MaxFallbackDip
  {
    var t := SearchEnd(d);
    if t + 1 >= |d| then
      var m := MinScan(d, 2, PosInf, 2);
      if Greater(m.0, MaxFallbackDip) then None else Some(m.1)
    else
      SearchEndIsADip(d);
      Some(t)
  }

  /** A search that stops early stops at a slot below the threshold that its right neighbour does
      not undercut. */
  lemma {:induction false} SearchEndIsADip(d: seq<Float>)
    requires SearchEnd(d) + 1 < |d|
    ensures FirstDip(d, 2).Some?
    ensures var t := SearchEnd(d); d[t].Num? && d[t].v < Threshold && !Less(d[t + 1], d[t])
  {
    var k := FirstDip(d, 2).value;
    assert d[k].Num? && d[k].v < Threshold;
  }

  /** The slots the parabolic refinement reads at `tau` are numeric. */
  predicate RefinableAt(d: seq<Float>, tau: nat)
  {
    tau < |d| && (1 <= tau && tau + 1 < |d| ==> d[tau - 1].Num? && d[tau].Num? && d[tau + 1].Num?)
  }

  /** Parabolic interpolation of the lag from its two neighbours; the bare lag at the edges or when
      the parabola is flat. */
  function RefinedLag(d: seq<Float>, tau: nat): (better: real)
    requires RefinableAt(d, tau)
    ensures better != tau as real ==>
              && 1 <= tau && tau + 1 < |d|
              && var s0 := d[tau - 1].v; var s1 := d[tau].v; var s2 := d[tau + 1].v;
                 && Abs(2.0 * s1 - s2 - s0) >= FlatDenominator
                 && (s0 + s2 - 2.0 * s1) * (better - tau as real) + (s2 - s0) / 2.0 == 0.0
  {
    if tau < 1 || tau + 1 >= |d| then tau as real
    else
      var s0 := d[tau - 1].v;
      var s1 := d[tau].v;
      var s2 := d[tau + 1].v;
      var denominator := 2.0 * s1 - s2 - s0;
      if Abs(denominator) < FlatDenominator then tau as real
      else tau as real + (s2 - s0) / (2.0 * denominator)
  }

  /** At a slot no larger than either neighbour the refined lag moves by at most half a lag: the
      vertex of a parabola that opens upwards lies between the neighbours' midpoints. */
  lemma {:induction false} RefinedLagWithinHalfLag(d: seq<Float>, tau: nat)
    requires 1 <= tau && tau + 1 < |d| && RefinableAt(d, tau)
    requires d[tau].v <= d[tau - 1].v && d[tau].v <= d[tau + 1].v
    ensures tau as real - 0.5 <= RefinedLag(d, tau) <= tau as real + 0.5
  {
    var s0 := d[tau - 1].v;
    var s1 := d[tau].v;
    var s2 := d[tau + 1].v;
    var denominator := 2.0 * s1 - s2 - s0;
    if Abs(denominator) >= FlatDenominator {
      var w := -2.0 * denominator;
      assert w > 0.0;
      assert -w / 2.0 <= s2 - s0 <= w / 2.0;
      assert (s2 - s0) / (2.0 * denominator) == -((s2 - s0) / w);
      QuotientAtMostHalf(s2 - s0, w);
      QuotientAtMostHalf(s0 - s2, w);
      assert (s0 - s2) / w == -((s2 - s0) / w);
    }
  }

  lemma QuotientAtMostHalf(b: real, w: real)
    requires w > 0.0 && b <= w / 2.0
    ensures b / w <= 0.5
  {
    var q := b / w;
    assert q * w == b;
  }

  lemma {:induction false} Diff0IsPositiveBeforeNaN(buf: seq<real>, tau: nat)
    requires 1 <= tau < Half(buf)
    requires RunningSum(buf, tau - 1) == 0.0 && RunningSum(buf, tau) != 0.0
    ensures Cmnd(buf, tau).Num? && Cmnd(buf, tau).v == tau as real
  {
    var x := Diff(buf, tau);
    var s := RunningSum(buf, tau);
    assert s == x;
    assert Cmnd(buf, tau).Num? && Cmnd(buf, tau).v == x * tau as real / s;
    assert x * tau as real / s == x * tau as real / x;
    ProductQuotientCancels(x, tau as real);
  }

  /** A CMND slot below its own lag (in particular any accepted dip) has numeric neighbours, so the
      parabolic refinement never reads NaN. */
  lemma {:induction false} NeighboursNumeric(buf: seq<real>, tau: nat)
    requires 2 <= tau < Half(buf)
    requires Cmnd(buf, tau).Num? && Cmnd(buf, tau).v < tau as real
    ensures Cmnd(buf, tau - 1).Num?
    ensures tau + 1 < Half(buf) ==> Cmnd(buf, tau + 1).Num?
  {
    if RunningSum(buf, tau - 1) == 0.0 {
      Diff0IsPositiveBeforeNaN(buf, tau);
      assert false;
    }
    if tau + 1 < Half(buf) {
      assert RunningSum(buf, tau + 1) >= RunningSum(buf, tau);
    }
  }

  /** `yinPitchDetection` on a whole buffer. */
  function Yin(buf: seq<real>, sampleRate: real, sqrt: real -> real): (r: Estimate)
    requires sampleRate > 0.0
    ensures Silence(buf, sqrt) ==> r == NoPitch
    ensures r == NoPitch || (MinGuitarHz <= r.frequency <= MaxGuitarHz && 1.0 - MaxFallbackDip <= r.clarity <= 1.0)
    ensures r != NoPitch ==>
              var lag := YinLag(CmndBuffer(buf));
              lag.Some? && r.clarity == 1.0 - CmndBuffer(buf)[lag.value].v
    ensures r != NoPitch <==>
              && !Silence(buf, sqrt)
              && var d := CmndBuffer(buf);
                 var lag := YinLag(d);
                 && lag.Some? && RefinableAt(d, lag.value) && RefinedLag(d, lag.value) != 0.0
                 && MinGuitarHz <= sampleRate / RefinedLag(d, lag.value) <= MaxGuitarHz
    ensures r != NoPitch ==>
              var d := CmndBuffer(buf);
              var lag := YinLag(d);
              lag.Some? && RefinableAt(d, lag.value) && r.frequency == sampleRate / RefinedLag(d, lag.value)
  {
    if Silence(buf, sqrt) then NoPitch
    else
      var d := CmndBuffer(buf);
      var lag := YinLag(d);
      if lag.None? then NoPitch
      else
        var tau := lag.value;
        NeighboursNumeric(buf, tau);
        var better := RefinedLag(d, tau);
        // sampleRate / 0 is +Infinity, which the range gate rejects
        if better == 0.0 then NoPitch
        else
          var frequency := sampleRate / better;
          if frequency < MinGuitarHz || frequency > MaxGuitarHz then NoPitch
          else Estimate(frequency, 1.0 - d[tau].v)
  }

  /** Past lag 2 the chosen lag is no larger than either numeric neighbour: the descent or the
      first crossing of the threshold stops there, or the fallback picked a global minimum. */
  lemma {:induction false} ChosenLagIsLocalMinimum(d: seq<Float>, tau: nat)
    requires YinLag(d) == Some(tau) && tau >= 3
    ensures d[tau - 1].Num? ==> d[tau].v <= d[tau - 1].v
    ensures tau + 1 < |d| && d[tau + 1].Num? ==> d[tau].v <= d[tau + 1].v
  {
    var t := SearchEnd(d);
    if t + 1 < |d| {
      SearchEndIsADip(d);
      var k := FirstDip(d, 2).value;
      if t > k {
        assert Less(d[t], d[t - 1]);
      } else {
        assert !Less(d[k - 1], Num(Threshold));
      }
    } else {
      assert !Less(d[tau - 1], d[tau]);
      if tau + 1 < |d| {
        assert !Less(d[tau + 1], d[tau]);
      }
    }
  }

  /** An accepted YIN estimate past lag 2 stands for a period within half a sample of the chosen
      lag. */
  lemma {:induction false} YinEstimateNearLag(buf: seq<real>, sampleRate: real, sqrt: real -> real)
    requires sampleRate > 0.0 && Yin(buf, sampleRate, sqrt) != NoPitch
    requires YinLag(CmndBuffer(buf)).value >= 3
    ensures var lag := YinLag(CmndBuffer(buf)).value;
            lag as real - 0.5 <= sampleRate / Yin(buf, sampleRate, sqrt).frequency <= lag as real + 0.5
  {
    var d := CmndBuffer(buf);
    var tau := YinLag(d).value;
    var better := RefinedLag(d, tau);
    ChosenLagIsLocalMinimum(d, tau);
    if tau + 1 < |d| {
      RefinedLagWithinHalfLag(d, tau);
    }
    var f := Yin(buf, sampleRate, sqrt).frequency;
    assert f == sampleRate / better && f > 0.0;
    RateOverFrequency(sampleRate, better);
  }

  lemma RateOverFrequency(s: real, x: real)
    requires s > 0.0 && x != 0.0 && s / x > 0.0
    ensures s / (s / x) == x
  {
    var q := s / x;
    assert q * x == s;
    assert s / q * q == s;
  }

  /** Step 1 at one lag: `diff += (buffer[i] - buffer[i + tau])^2` over the half window. */
  method DifferenceAt(buffer: array<real>, tau: nat) returns (diff: real)
    requires tau < Half(buffer[..])
    ensures diff == Diff(buffer[..], tau)
  {
    var half := buffer.Length / 2;
    diff := 0.0;
    for i := 0 to half
      invariant diff == DiffPrefix(buffer[..], tau, i)
    {
      var delta := buffer[i] - buffer[i + tau];
      diff := diff + delta * delta;
    }
  }

  /** Steps 1 and 2: the difference function and its cumulative mean normalisation. */
  method CumulativeMeanNormalizedDifference(buffer: array<real>) returns (d: array<Float>)
    ensures fresh(d)
    ensures d[..] == CmndBuffer(buffer[..])
  {
    ghost var buf := buffer[..];
    var half := buffer.Length / 2;
    d := new Float[half](_ => Num(0.0));
    if half > 0 {
      d[0] := Num(1.0);
    }
    var runningSum := 0.0;
    var tau := 1;
    while tau < half
      invariant 1 <= tau && (half == 0 || tau <= half)
      invariant half > 0 ==> runningSum == RunningSum(buf, tau - 1)
      invariant forall t :: 0 <= t < tau && t < half ==> d[t] == Cmnd(buf, t)
      decreases half - tau
    {
      var slot;
      runningSum, slot := NormalizedSlot(buffer, tau, runningSum);
      d[tau] := slot;
      tau := tau + 1;
    }
  }

  /** One turn of the normalisation loop: `runningSum += d(tau)`, then `d(tau) * tau / runningSum`. */
  method NormalizedSlot(buffer: array<real>, tau: nat, runningSum: real) returns (sum: real, slot: Float)
    requires 0 < tau < Half(buffer[..]) && runningSum == RunningSum(buffer[..], tau - 1)
    ensures sum == RunningSum(buffer[..], tau) && slot == Cmnd(buffer[..], tau)
  {
    var diff := DifferenceAt(buffer, tau);
    sum := runningSum + diff;
    if sum == 0.0 {
      slot := NaN;
    } else {
      slot := Num(diff * tau as real / sum);
    }
  }

  /** The descent `while (tau + 1 < HALF && d[tau + 1] < d[tau]) tau++`. */
  method DescendFrom(d: array<Float>, start: nat) returns (tau: nat)
    requires start < d.Length
    ensures tau == Descend(d[..], start)
  {
    tau := start;
    while tau + 1 < d.Length && Less(d[tau + 1], d[tau])
      invariant start <= tau < d.Length
      invariant Descend(d[..], start) == Descend(d[..], tau)
      decreases d.Length - tau
    {
      tau := tau + 1;
    }
  }

  /** Step 3: the absolute threshold and the descent to the local minimum. */
  method AbsoluteThreshold(d: array<Float>) returns (tau: nat)
    ensures tau == SearchEnd(d[..])
  {
    tau := 2;
    while tau + 1 < d.Length
      invariant 2 <= tau
      invariant FirstDip(d[..], 2) == FirstDip(d[..], tau)
      invariant tau == 2 || tau + 1 <= d.Length
      decreases d.Length - tau
    {
      if Less(d[tau], Num(Threshold)) {
        assert FirstDip(d[..], tau) == Some(tau);
        tau := DescendFrom(d, tau);
        return;
      }
      tau := tau + 1;
    }
    assert FirstDip(d[..], tau) == None;
  }

  /** The fallback: the first global minimum of slots 2 .. HALF - 1, starting from +Infinity. */
  method GlobalMinimum(d: array<Float>) returns (minVal: Float, minTau: nat)
    ensures (minVal, minTau) == MinScan(d[..], 2, PosInf, 2)
  {
    minVal := PosInf;
    minTau := 2;
    var i := 2;
    while i < d.Length
      invariant !minVal.NaN? && minTau <= i
      invariant MinScan(d[..], i, minVal, minTau) == MinScan(d[..], 2, PosInf, 2)
      decreases d.Length - i
    {
      if Less(d[i], minVal) {
        minVal := d[i];
        minTau := i;
      }
      i := i + 1;
    }
  }

  /** Steps 3 and 4: the threshold search, and the global minimum when it runs off the end. */
  method ChooseLag(d: array<Float>) returns (lag: Option<nat>)
    ensures lag == YinLag(d[..])
  {
    var tau := AbsoluteThreshold(d);
    if tau + 1 >= d.Length {
      var minVal, minTau := GlobalMinimum(d);
      if Greater(minVal, MaxFallbackDip) {
        return None;
      }
      return Some(minTau);
    }
    return Some(tau);
  }

  /** Step 5: parabolic interpolation around the chosen lag. */
  method Refine(d: array<Float>, tau: nat) returns (betterTau: real)
    requires RefinableAt(d[..], tau)
    ensures betterTau == RefinedLag(d[..], tau)
  {
    if tau < 1 || tau + 1 >= d.Length {
      return tau as real;
    }
    var s0 := d[tau - 1].v;
    var s1 := d[tau].v;
    var s2 := d[tau + 1].v;
    var denominator := 2.0 * s1 - s2 - s0;
    if Abs(denominator) < FlatDenominator {
      betterTau := tau as real;
    } else {
      betterTau := tau as real + (s2 - s0) / (2.0 * denominator);
    }
  }

  /** `yinPitchDetection`: steps 1 to 5 and the guitar range gate. */
  method YinPitchDetection(buffer: array<real>, sampleRate: real, sqrt: real -> real) returns (r: Estimate)
    requires sampleRate > 0.0
    ensures r == Yin(buffer[..], sampleRate, sqrt)
  {
    var rms := RmsOf(buffer, sqrt);
    if Less(rms, Num(RmsFloor)) {
      return NoPitch;
    }
    var d := CumulativeMeanNormalizedDifference(buffer);
    var lag := ChooseLag(d);
    if lag.None? {
      return NoPitch;
    }
    var tau := lag.value;
    NeighboursNumeric(buffer[..], tau);
    var betterTau := Refine(d, tau);
    if betterTau == 0.0 {
      return NoPitch;
    }
    var frequency := sampleRate / betterTau;
    if frequency < MinGuitarHz || frequency > MaxGuitarHz {
      return NoPitch;
    }
    return Estimate(frequency, 1.0 - d[tau].v);
  }
}
