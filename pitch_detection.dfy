/** The pitch-detection hook: chooses an estimator, gates on clarity, smooths small changes,
    keeps a five-reading window and reports its median as a note. */
module PitchDetection {
  import opened Numerics
  import opened Samples
  import opened NoteMapping
  import YinDetector
  import AutoCorrelation

  datatype Algorithm = Yin | Autocorrelation | Hybrid

  /** The hook's options; `log2` and `sqrt` stand for `Math.log2` and `Math.sqrt`. */
  datatype Config = Config(
    smoothingFactor: real,
    clarityThreshold: real,
    algorithm: Algorithm,
    log2: real -> real,
    sqrt: real -> real)

  /** The defaults `smoothingFactor = 0.8`, `clarityThreshold = 0.7`, `algorithm = 'hybrid'`. */
  function DefaultConfig(log2: real -> real, sqrt: real -> real): Config
  {
    Config(0.8, 0.7, Hybrid, log2, sqrt)
  }

  const MaxHistory: nat := 5
  /** Relative change below which a new reading is blended with the previous one. */
  const SmoothingWindow: real := 0.1
  /** The clarity given to an autocorrelation estimate. */
  const AutocorrelationClarity: real := 0.8

  /** The estimator stage: YIN for `yin` and `hybrid`; autocorrelation for `autocorrelation`, and
      for `hybrid` when YIN found nothing. */
  function RawEstimate(algorithm: Algorithm, buf: seq<real>, sampleRate: real, sqrt: real -> real): (e: YinDetector.Estimate)
    requires sampleRate > 0.0
    ensures algorithm.Yin? ==> e == YinDetector.Yin(buf, sampleRate, sqrt)
    ensures algorithm.Hybrid? && YinDetector.Yin(buf, sampleRate, sqrt).frequency > 0.0 ==>
              e == YinDetector.Yin(buf, sampleRate, sqrt)
    ensures e.frequency > 0.0 && !(algorithm.Yin? || YinDetector.Yin(buf, sampleRate, sqrt).frequency > 0.0) ==>
              e.clarity == AutocorrelationClarity
    ensures e.frequency <= 0.0 ==> e.clarity == 0.0
    ensures algorithm.Autocorrelation? || (algorithm.Hybrid? && YinDetector.Yin(buf, sampleRate, sqrt).frequency <= 0.0) ==>
              e.frequency == AutoCorrelation.AutoCorrelate(buf, sampleRate, sqrt)
  {
    var y := if algorithm.Yin? || algorithm.Hybrid? then YinDetector.Yin(buf, sampleRate, sqrt)
             else YinDetector.Estimate(-1.0, 0.0);
    if (algorithm.Autocorrelation? || algorithm.Hybrid?) && y.frequency <= 0.0 then
      var f := AutoCorrelation.AutoCorrelate(buf, sampleRate, sqrt);
      YinDetector.Estimate(f, if f > 0.0 then AutocorrelationClarity else 0.0)
    else y
  }

  /** `hybrid` is `yin` when YIN finds a pitch and `autocorrelation` otherwise; every estimate with
      a frequency is either a YIN estimate in the guitar range or an autocorrelation estimate. */
  lemma {:induction false} HybridIsYinThenAutocorrelation(buf: seq<real>, sampleRate: real, sqrt: real -> real)
    requires sampleRate > 0.0
    ensures var y := YinDetector.Yin(buf, sampleRate, sqrt);
      RawEstimate(Hybrid, buf, sampleRate, sqrt) ==
        if y != YinDetector.NoPitch then RawEstimate(Yin, buf, sampleRate, sqrt)
        else RawEstimate(Autocorrelation, buf, sampleRate, sqrt)
    ensures forall a: Algorithm :: RawEstimate(a, buf, sampleRate, sqrt).frequency > 0.0 ==>
              var e := RawEstimate(a, buf, sampleRate, sqrt);
              (YinDetector.MinGuitarHz <= e.frequency <= YinDetector.MaxGuitarHz && e == YinDetector.Yin(buf, sampleRate, sqrt))
              || (e.frequency == AutoCorrelation.AutoCorrelate(buf, sampleRate, sqrt) && e.clarity == AutocorrelationClarity)
  {
    var y := YinDetector.Yin(buf, sampleRate, sqrt);
    assert y != YinDetector.NoPitch <==> y.frequency > 0.0;
  }

  /** The gate `frequency <= 0 || clarity < clarityThreshold` fails. */
  predicate Accepted(e: YinDetector.Estimate, clarityThreshold: real)
  {
    !(e.frequency <= 0.0 || e.clarity < clarityThreshold)
  }

  /** Exponential smoothing when the new reading is within 10% of the previous one. */
  function Smooth(k: real, last: real, frequency: real): real
  {
    if last > 0.0 && Abs(frequency - last) / last < SmoothingWindow then k * last + (1.0 - k) * frequency
    else frequency
  }

  /** `history.push(f)` followed by `history.shift()` when the window overflows. */
  function PushHistory(history: seq<real>, frequency: real): (h: seq<real>)
    ensures |h| == if |history| + 1 > MaxHistory then |history| else |history| + 1
    ensures |h| > 0 && h[|h| - 1] == frequency
    ensures |history| + 1 > MaxHistory ==> h == history[1..] + [frequency]
    ensures |history| + 1 <= MaxHistory ==> h == history + [frequency]
  {
    var pushed := history + [frequency];
    if |pushed| > MaxHistory then pushed[1..] else pushed
  }

  predicate Sorted(s: seq<real>)
  {
    forall i, j :: 0 <= i < j < |s| ==> s[i] <= s[j]
  }

  /** Insert `x` into a sorted sequence. */
  function Insert(x: real, s: seq<real>): (r: seq<real>)
    requires Sorted(s)
    ensures Sorted(r)
    ensures multiset(r) == multiset(s) + multiset{x}
    ensures |r| == |s| + 1
  {
    if |s| == 0 then [x]
    else if x <= s[0] then [x] + s
    else
      assert s == [s[0]] + s[1..];
      var rest := Insert(x, s[1..]);
      HeadBelowInserted(x, s, rest);
      [s[0]] + rest
  }

  /** The head of a sorted sequence is at most every element of `x` inserted into its tail. */
  lemma HeadBelowInserted(x: real, s: seq<real>, rest: seq<real>)
    requires Sorted(s) && |s| > 0 && s[0] < x
    requires multiset(rest) == multiset(s[1..]) + multiset{x}
    ensures forall i :: 0 <= i < |rest| ==> s[0] <= rest[i]
  {
    forall i | 0 <= i < |rest|
      ensures s[0] <= rest[i]
    {
      assert rest[i] in multiset(rest);
      if rest[i] != x {
        assert rest[i] in multiset(s[1..]);
      }
    }
  }

  /** The ascending numeric sort `[...history].sort((a, b) => a - b)`. */
  function SortAscending(s: seq<real>): (r: seq<real>)
    ensures Sorted(r)
    ensures multiset(r) == multiset(s)
    ensures |r| == |s|
  {
    if |s| == 0 then []
    else
      assert s == [s[0]] + s[1..];
      Insert(s[0], SortAscending(s[1..]))
  }

  /** `sorted[floor(n / 2)]`. */
  function Median(h: seq<real>): real
    requires |h| > 0
  {
    SortAscending(h)[|h| / 2]
  }

  /** What one call of `detectPitch` returns and leaves behind in the hook's refs. */
  datatype Outcome = Outcome(lastFrequency: real, history: seq<real>, reading: TunerData)

  /** `detectPitch` as a function of the previous `lastFrequency` and history. */
  function Detect(config: Config, last: real, history: seq<real>, buf: seq<real>, sampleRate: real): Outcome
    requires sampleRate > 0.0
  {
    var e := RawEstimate(config.algorithm, buf, sampleRate, config.sqrt);
    if !Accepted(e, config.clarityThreshold) then Outcome(last, history, Silent)
    else AcceptedOutcome(config, last, history, e)
  }

  /** The accepted branch: smooth, push into the window, take the median of three or more. */
  function AcceptedOutcome(config: Config, last: real, history: seq<real>, e: YinDetector.Estimate): Outcome
  {
    var smoothed := Smooth(config.smoothingFactor, last, e.frequency);
    var h := PushHistory(history, smoothed);
    var f := if |h| >= 3 then Median(h) else smoothed;
    Outcome(f, h, FrequencyToNote(config.log2, f).(clarity := e.clarity))
  }

  /** The median of the window is one of its readings, and it splits the sorted window in two. */
  lemma {:induction false} MedianIsAReading(h: seq<real>)
    requires |h| > 0
    ensures Median(h) in h
    ensures forall i :: 0 <= i < |h| / 2 ==> SortAscending(h)[i] <= Median(h)
    ensures forall i :: |h| / 2 < i < |h| ==> Median(h) <= SortAscending(h)[i]
  {
    var s := SortAscending(h);
    assert s[|h| / 2] in multiset(s);
    assert s[|h| / 2] in multiset(h);
  }

  /** With `0 <= k <= 1`, smoothing never leaves the interval between the old and the new reading. */
  lemma {:induction false} SmoothingStaysBetween(k: real, last: real, frequency: real)
    requires 0.0 <= k <= 1.0
    ensures var s := Smooth(k, last, frequency);
            MinR(last, frequency) <= s <= MaxR(last, frequency) || s == frequency
  {
    if last > 0.0 && Abs(frequency - last) / last < SmoothingWindow {
      var s := k * last + (1.0 - k) * frequency;
      assert s == frequency + k * (last - frequency);
      if last >= frequency {
        ProductNonnegative(k, last - frequency);
        ProductNonnegative(1.0 - k, last - frequency);
        assert last - s == (1.0 - k) * (last - frequency);
      } else {
        ProductNonnegative(k, frequency - last);
        ProductNonnegative(1.0 - k, frequency - last);
        assert s - last == (1.0 - k) * (frequency - last);
      }
    }
  }

  /** A rejected buffer leaves the refs alone and reads silent; an accepted one pushes exactly one
      reading, keeps at most five, and reports a frequency taken from the window with the
      estimate's clarity, which meets the threshold. */
  lemma {:induction false} DetectKeepsWindow(config: Config, last: real, history: seq<real>, buf: seq<real>, sampleRate: real)
    requires sampleRate > 0.0 && |history| <= MaxHistory
    ensures var o := Detect(config, last, history, buf, sampleRate);
            var e := RawEstimate(config.algorithm, buf, sampleRate, config.sqrt);
            && (!Accepted(e, config.clarityThreshold) ==> o == Outcome(last, history, Silent))
            && (Accepted(e, config.clarityThreshold) ==>
                  && |o.history| == MinInt(|history| + 1, MaxHistory) && |o.history| <= MaxHistory
                  && o.lastFrequency in o.history
                  && o.reading.clarity == e.clarity >= config.clarityThreshold
                  && (20.0 <= o.lastFrequency <= 5000.0 ==> o.reading.frequency == o.lastFrequency)
                  && (o.lastFrequency < 20.0 || o.lastFrequency > 5000.0 ==> o.reading.note == "-"))
  {
    var e := RawEstimate(config.algorithm, buf, sampleRate, config.sqrt);
    if Accepted(e, config.clarityThreshold) {
      var smoothed := Smooth(config.smoothingFactor, last, e.frequency);
      var h := PushHistory(history, smoothed);
      if |h| >= 3 {
        MedianIsAReading(h);
      }
    }
  }

  function MinInt(a: int, b: int): int
  {
    if a <= b then a else b
  }

  /** The smoothing step of `detectPitch`. */
  method SmoothStep(k: real, last: real, frequency: real) returns (smoothed: real)
    ensures smoothed == Smooth(k, last, frequency)
  {
    smoothed := frequency;
    if last > 0.0 {
      var diff := Abs(frequency - last);
      var percentDiff := diff / last;
      if percentDiff < SmoothingWindow {
        smoothed := k * last + (1.0 - k) * frequency;
      }
    }
  }

  /** The hook's persistent part: the two refs and the published reading. */
  class PitchDetector {
    const config: Config
    var lastFrequency: real
    var history: seq<real>
    var tunerData: TunerData

    /** The window never exceeds five readings, and the remembered frequency is one of them. */
    predicate Valid()
      reads this
    {
      |history| <= MaxHistory && (lastFrequency == 0.0 || lastFrequency in history)
    }

    constructor (config: Config)
      ensures Valid()
      ensures this.config == config
      ensures lastFrequency == 0.0 && history == [] && tunerData == Silent
    {
      this.config := config;
      lastFrequency := 0.0;
      history := [];
      tunerData := Silent;
    }

    /** The estimator stage of `detectPitch`. */
    method EstimatePitch(buffer: array<real>, sampleRate: real) returns (frequency: real, clarity: real)
      requires sampleRate > 0.0
      ensures YinDetector.Estimate(frequency, clarity) == RawEstimate(config.algorithm, buffer[..], sampleRate, config.sqrt)
    {
      frequency := -1.0;
      clarity := 0.0;
      if config.algorithm.Yin? || config.algorithm.Hybrid? {
        var yinResult := YinDetector.YinPitchDetection(buffer, sampleRate, config.sqrt);
        frequency := yinResult.frequency;
        clarity := yinResult.clarity;
      }
      if (config.algorithm.Autocorrelation? || config.algorithm.Hybrid?) && frequency <= 0.0 {
        frequency := AutoCorrelation.AutoCorrelateSamples(buffer, sampleRate, config.sqrt);
        clarity := if frequency > 0.0 then AutocorrelationClarity else 0.0;
      }
    }

    /** `historyRef.current.push(f)`, then `shift()` once the window holds more than five. */
    method Remember(frequency: real)
      modifies this
      ensures history == PushHistory(old(history), frequency)
      ensures lastFrequency == old(lastFrequency) && tunerData == old(tunerData)
    {
      history := history + [frequency];
      if |history| > MaxHistory {
        history := history[1..];
      }
    }

    /** `detectPitch(buffer, sampleRate)`. */
    method DetectPitch(buffer: array<real>, sampleRate: real) returns (reading: TunerData)
      requires Valid() && sampleRate > 0.0
      modifies this
      ensures Valid()
      ensures Outcome(lastFrequency, history, reading)
              == Detect(config, old(lastFrequency), old(history), buffer[..], sampleRate)
      ensures tunerData == old(tunerData)
    {
      var frequency, clarity := EstimatePitch(buffer, sampleRate);
      if frequency <= 0.0 || clarity < config.clarityThreshold {
        return Silent;
      }
      reading := Track(frequency, clarity);
    }

    /** The accepted branch of `detectPitch`. */
    method Track(frequency: real, clarity: real) returns (reading: TunerData)
      requires Valid()
      modifies this
      ensures Valid()
      ensures Outcome(lastFrequency, history, reading)
              == AcceptedOutcome(config, old(lastFrequency), old(history), YinDetector.Estimate(frequency, clarity))
      ensures tunerData == old(tunerData)
    {
      var f := SmoothStep(config.smoothingFactor, lastFrequency, frequency);
      Remember(f);
      if |history| >= 3 {
        var sorted := SortAscending(history);
        f := sorted[|history| / 2];
        MedianIsAReading(history);
      }
      lastFrequency := f;
      var noteData := FrequencyToNote(config.log2, f);
      reading := noteData.(clarity := clarity);
    }

    /** `reset()`: forget the previous reading and the window, publish the silent reading. */
    method Reset()
      requires Valid()
      modifies this
      ensures Valid()
      ensures lastFrequency == 0.0 && history == [] && tunerData == Silent
    {
      lastFrequency := 0.0;
      history := [];
      tunerData := Silent;
    }
  }
}
