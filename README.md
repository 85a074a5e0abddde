# A verified model of a guitar pedalboard web app

The application is a browser pedalboard for guitar. It has three parts, plus the components around them.

- **Effect engine.** A microphone input runs through eight effects in a fixed series: compressor, drive, distortion, chorus, tremolo, delay, wah and reverb. Each effect sits inside a true-bypass wrapper that crossfades a dry gain and a wet gain.
- **Pitch detector.** It feeds the tuners and works in four steps:
  - YIN, with an autocorrelation fallback;
  - a clarity gate;
  - exponential smoothing;
  - a five-reading median window.
- **Tuners.** Three tuner displays read the detector's output.

Around them are the components this project also models:

- two metronomes;
- the custom-pedal library page, with its validator of uploaded pedal classes;
- the built-in preset table;
- the three parameter controls (a rotary knob, a plus/minus control and a slider);
- the administration page's user list and create-user form.

The model takes the form of each source file:

- **Pure computations** are functions, and lemmas state what they promise.
- **Loops** are methods with `while` loops, proved against those functions:
  - the estimators' energy, difference, trimming, correlation and peak loops;
  - the scheduler loop;
  - the validator's method and parameter loops;
  - the closest-string scan.
- **Objects whose state changes step by step** are classes. Their methods `ensures` the new state as a function of the old one, and they keep a `Valid()` invariant:
  - the engine controller;
  - the pitch detector's refs;
  - the curve cache;
  - both metronomes;
  - the knob's drag gesture;
  - the administration form.

Numbers are `real`.

- **JavaScript operators.** `Math.round`, the truncating `%`, `Math.max`/`Math.min` and the `||`/`??` defaults are written out exactly.
- **`Math.log2` and `Math.sqrt`** are function parameters. Where a property needs one of their facts, that fact is a `requires` of the lemma.
- **IEEE NaN and Infinity** are modelled only where the code can produce them:
  - YIN's 0/0 slots;
  - the `Infinity` sentinel of its fallback scan;
  - the RMS of an empty buffer.

Some behaviour of the code is easy to misread; the model follows the code:

- `disconnect()` resets the live readings and drops every node reference. It keeps the user's parameters and pedal state; nothing resets the parameters on disconnect.
- The engine never polls a pitch detector. It only initialises and resets `tunerData`.
- The live-update effect is introduced by the comment "Live param updates — no reconnection needed" (src/hooks/useAudioEngine.ts:469). Yet it does not push delay mix, reverb decay or reverb mix. Those three change the sound only after a reconnect, which `EngineGraph.WetMixChangesAreNotLive` proves.
- The stage metronome's pending timer keeps the tempo it was created with. A tempo change while playing takes effect only at the next `start()`, which `StageMetronome.Clock.ChangeBpm` states.

## Model

| member | source | states |
|---|---|---|
| Numerics.Round | src/hooks/usePitchDetection.ts:26-27 | `Math.round`: the result is within half a unit of its input, and exact halves round up |
| Numerics.JsRem | src/hooks/usePitchDetection.ts:31 | JavaScript's truncating `%`: the remainder has the dividend's sign and lies below the divisor's magnitude |
| Numerics.Clamp | src/components/Knob.tsx:38 | `Math.max(min, Math.min(max, x))` lies in the range and is `x` when `x` already is |
| Samples.SumSquares | src/hooks/usePitchDetection.ts:46-49 | the energy sum is non-negative |
| Samples.SumOfSquares | src/hooks/usePitchDetection.ts:46-49 | the energy loop computes the sum of squares of the whole buffer |
| Samples.RmsOf | src/hooks/usePitchDetection.ts:46-53 | the RMS computed from the energy loop is `Rms` of the buffer: `sqrt(sum / SIZE)`, and NaN (on which the silence gate does not fire) for an empty buffer |
| NoteMapping.NoteIndex | src/hooks/usePitchDetection.ts:31 | `((midi % 12) + 12) % 12` with truncating `%` lies in `[0, 12)` and equals the mathematical residue for every integer |
| NoteMapping.Octave | src/hooks/usePitchDetection.ts:32 | `Math.floor(midi / 12) - 1` is floor division minus one, negative MIDI numbers included |
| NoteMapping.Cents | src/hooks/usePitchDetection.ts:26-27 | the cents of any semitone distance lie in `[-50, 50]` and are its rounded fractional part times 100 |
| NoteMapping.FrequencyToNote | src/hooks/usePitchDetection.ts:19-35 | outside `[20, 5000]` Hz the sentinel reading, and only there; otherwise the input frequency, clarity 1, the nearest note's name and octave, cents in `[-50, 50]` |
| NoteMapping.MidiDecomposition | src/hooks/usePitchDetection.ts:30-32 | `12 * (octave + 1) + index` recovers the MIDI number |
| NoteMapping.MidiFromNoteAndOctave | src/hooks/usePitchDetection.ts:30-32 | every (note index, octave) pair is produced by exactly one MIDI number |
| NoteMapping.ExactNoteHasZeroCents | src/hooks/usePitchDetection.ts:25-32 | a frequency exactly `n` semitones from A4 reads 0 cents and names note `69 + n` |
| NoteMapping.ReferenceNotes | src/hooks/usePitchDetection.ts:29-32 | MIDI 69 is A4, MIDI 60 is C4, MIDI -1 is B at octave -2 |
| AutoCorrelation.FirstQuiet | src/hooks/usePitchDetection.ts:60-65 | the first sample in the first half below 0.2 in magnitude, with every earlier one at or above it, or none |
| AutoCorrelation.LastQuiet | src/hooks/usePitchDetection.ts:67-72 | the first offset from the end, below half the size, whose sample is quiet, or none |
| AutoCorrelation.Trimmed | src/hooks/usePitchDetection.ts:74 | `buffer.slice(r1, r2)` with `0 <= r1 <= r2 < SIZE` |
| AutoCorrelation.CorrelationTable | src/hooks/usePitchDetection.ts:80-88 | slot `lag` holds the autocorrelation at that lag |
| AutoCorrelation.FirstPeak | src/hooks/usePitchDetection.ts:98-106 | the first index in the window strictly above both neighbours, none before it, or none at all |
| AutoCorrelation.AutoPeak | src/hooks/usePitchDetection.ts:53-108 | an accepted peak lies in `[floor(sr/2000), floor(sr/50))` and in the searched window, is a strict local maximum of the correlations, and no earlier lag of the window is one; there is none exactly when the buffer is silent, the trimmed buffer has fewer than two samples, or no lag of the window is a peak |
| AutoCorrelation.Shift | src/hooks/usePitchDetection.ts:111-121 | on a curved parabola the shift is its vertex: the derivative `2a x + b` vanishes there |
| AutoCorrelation.ShiftWithinHalfLag | src/hooks/usePitchDetection.ts:111-121 | at a strict local maximum the parabolic shift is strictly inside `(-0.5, 0.5)` |
| AutoCorrelation.AutoCorrelate | src/hooks/usePitchDetection.ts:41-126 | the result is -1 or positive, positive exactly when a peak was found, and then the sample rate over the refined lag of that peak |
| AutoCorrelation.RefinedLag | src/hooks/usePitchDetection.ts:110-123 | the refined lag lies within half a sample of the peak and is positive |
| AutoCorrelation.EstimateNearPeak | src/hooks/usePitchDetection.ts:123-125 | an accepted estimate is the sample rate over a lag within half a sample of the peak |
| AutoCorrelation.TrimBounds | src/hooks/usePitchDetection.ts:56-72 | the two trimming loops stop at the first quiet sample found from each end |
| AutoCorrelation.CorrelationAt | src/hooks/usePitchDetection.ts:83-86 | the inner loop computes the correlation at one lag |
| AutoCorrelation.Correlations | src/hooks/usePitchDetection.ts:80-88 | the filled array equals the correlation table |
| AutoCorrelation.PeakSearch | src/hooks/usePitchDetection.ts:91-106 | the peak loop returns the first peak, or -1 |
| AutoCorrelation.CorrelationPeak | src/hooks/usePitchDetection.ts:80-106 | the correlations and the first peak in the lag window |
| AutoCorrelation.AutoCorrelateSamples | src/hooks/usePitchDetection.ts:41-126 | the imperative estimator returns what `AutoCorrelate` specifies |
| AutoCorrelation.RefinedPeakIndex | src/hooks/usePitchDetection.ts:110-123 | parabolic interpolation around the found peak |
| YinDetector.DiffPrefix | src/hooks/usePitchDetection.ts:152-156 | the difference sum is non-negative |
| YinDetector.RunningSum | src/hooks/usePitchDetection.ts:149-157 | the running sum of the normalisation is non-negative |
| YinDetector.Cmnd | src/hooks/usePitchDetection.ts:146-159 | a normalised slot is never +Infinity, is NaN exactly when the running sum is 0, and is non-negative otherwise |
| YinDetector.CmndBuffer | src/hooks/usePitchDetection.ts:146-159 | the buffer has `floor(SIZE/2)` slots, each the normalised difference at its lag |
| YinDetector.FirstDip | src/hooks/usePitchDetection.ts:163-175 | the first lag short of the last slot whose value is below 0.1, with none before it, or none |
| YinDetector.Descend | src/hooks/usePitchDetection.ts:169-171 | the descent stops where the next slot is not strictly smaller, every step went strictly down, and the value did not rise |
| YinDetector.MinScan | src/hooks/usePitchDetection.ts:179-187 | the fallback scan ends on the first least slot: nothing after is smaller, nothing before is as small |
| YinDetector.YinLag | src/hooks/usePitchDetection.ts:161-191 | the chosen lag is at least 2, inside the buffer, and numeric with a value at most 0.5; when the search stops early it is where the search stopped, below 0.1 and not undercut on its right; otherwise it is the fallback scan's first global minimum; there is none exactly when every slot from 2 on is NaN or above 0.5 |
| YinDetector.SearchEndIsADip | src/hooks/usePitchDetection.ts:163-175 | a search that stops short of the last slot found a dip and stops below 0.1, at a slot its right neighbour does not undercut |
| YinDetector.RefinedLag | src/hooks/usePitchDetection.ts:193-209 | a refined lag other than the bare one comes from an inner lag with a non-flat denominator, and is the vertex of the parabola through the three slots |
| YinDetector.RefinedLagWithinHalfLag | src/hooks/usePitchDetection.ts:193-209 | at a slot no larger than either neighbour the refined lag lies within half a lag of it |
| YinDetector.ChosenLagIsLocalMinimum | src/hooks/usePitchDetection.ts:161-191 | a chosen lag past 2 is no larger than either numeric neighbour |
| YinDetector.YinEstimateNearLag | src/hooks/usePitchDetection.ts:193-219 | an accepted estimate with a lag past 2 is the sample rate over a period within half a sample of that lag |
| YinDetector.Diff0IsPositiveBeforeNaN | src/hooks/usePitchDetection.ts:157-158 | the first lag with a nonzero difference normalises to its own lag |
| YinDetector.NeighboursNumeric | src/hooks/usePitchDetection.ts:196-209 | a slot below its own lag has numeric neighbours, so the interpolation works on plain numbers |
| YinDetector.Yin | src/hooks/usePitchDetection.ts:132-220 | silence and out-of-range results give `(-1, 0)`; an accepted estimate is in `[60, 1500]` Hz with clarity `1 - d'(tau)` in `[0.5, 1]`; there is an estimate exactly when the buffer is not silent, a lag was chosen and the sample rate over its nonzero refined lag lies in `[60, 1500]`, and the estimate's frequency is that quotient |
| YinDetector.DifferenceAt | src/hooks/usePitchDetection.ts:152-156 | the difference loop at one lag |
| YinDetector.CumulativeMeanNormalizedDifference | src/hooks/usePitchDetection.ts:146-159 | the filled buffer equals the normalised-difference table |
| YinDetector.NormalizedSlot | src/hooks/usePitchDetection.ts:157-158 | one turn of the normalisation loop |
| YinDetector.DescendFrom | src/hooks/usePitchDetection.ts:169-171 | the descent loop |
| YinDetector.AbsoluteThreshold | src/hooks/usePitchDetection.ts:161-175 | the threshold loop ends where the specification's search ends |
| YinDetector.GlobalMinimum | src/hooks/usePitchDetection.ts:178-187 | the fallback loop starting from +Infinity |
| YinDetector.ChooseLag | src/hooks/usePitchDetection.ts:161-191 | the threshold search with its fallback and the 0.5 rejection |
| YinDetector.Refine | src/hooks/usePitchDetection.ts:193-209 | parabolic interpolation, the bare lag at the edges or on a flat denominator |
| YinDetector.YinPitchDetection | src/hooks/usePitchDetection.ts:132-220 | the imperative estimator returns what `Yin` specifies |
| PitchDetection.RawEstimate | src/hooks/usePitchDetection.ts:247-261 | YIN for `yin`; for `hybrid`, YIN when it found a frequency; the autocorrelation frequency for `autocorrelation`, and for `hybrid` when YIN found none; an autocorrelation result has clarity 0.8; a non-positive frequency has clarity 0 |
| PitchDetection.HybridIsYinThenAutocorrelation | src/hooks/usePitchDetection.ts:247-261 | `hybrid` agrees with `yin` when YIN finds a pitch and with `autocorrelation` otherwise; every estimate with a frequency is a YIN estimate in `[60, 1500]` Hz or an autocorrelation estimate with clarity 0.8 |
| PitchDetection.PushHistory | src/hooks/usePitchDetection.ts:279-282 | the new reading is appended, and the oldest is dropped once the window would exceed five |
| PitchDetection.Insert | src/hooks/usePitchDetection.ts:286 | insertion keeps the sequence sorted and adds exactly the one element |
| PitchDetection.SortAscending | src/hooks/usePitchDetection.ts:286 | the numeric sort is sorted and a permutation of its input |
| PitchDetection.MedianIsAReading | src/hooks/usePitchDetection.ts:285-289 | `sorted[floor(n/2)]` is one of the readings and splits the sorted window in two |
| PitchDetection.SmoothingStaysBetween | src/hooks/usePitchDetection.ts:267-276 | with the factor in `[0, 1]` the smoothed value lies between the last and the new reading, or is the new reading |
| PitchDetection.DetectKeepsWindow | src/hooks/usePitchDetection.ts:247-297 | a rejected buffer reads silent and leaves the refs alone; an accepted one pushes one reading, keeps at most five, remembers a reading of the window and passes the clarity |
| PitchDetection.SmoothStep | src/hooks/usePitchDetection.ts:268-276 | the smoothing step |
| PitchDetection.PitchDetector.constructor | src/hooks/usePitchDetection.ts:235-244 | no previous reading, an empty window, the silent reading |
| PitchDetection.PitchDetector.EstimatePitch | src/hooks/usePitchDetection.ts:248-261 | the estimator stage returns what `RawEstimate` specifies |
| PitchDetection.PitchDetector.Remember | src/hooks/usePitchDetection.ts:279-282 | the window becomes `PushHistory` of the old one; nothing else changes |
| PitchDetection.PitchDetector.DetectPitch | src/hooks/usePitchDetection.ts:247-297 | the reading and the new refs are what `Detect` specifies, and the window invariant is kept |
| PitchDetection.PitchDetector.Track | src/hooks/usePitchDetection.ts:267-296 | the accepted branch: smoothing, window and median as specified |
| PitchDetection.PitchDetector.Reset | src/hooks/usePitchDetection.ts:299-303 | last frequency 0, empty window, silent reading |
| DistortionCurve.CurveKey | src/hooks/useAudioEngine.ts:43 | the cache key is `amount * 100` rounded |
| DistortionCurve.CurveTable | src/hooks/useAudioEngine.ts:45-53 | 8192 slots, slot `i` holding the curve at `2i/8192 - 1` |
| DistortionCurve.SamplePositionsIncrease | src/hooks/useAudioEngine.ts:50-51 | the slots cover `[-1, 1)` strictly increasing, with slot 4096 at 0 |
| DistortionCurve.CurveParts | src/hooks/useAudioEngine.ts:48-52 | the curve is a positive multiple of `x` over a positive denominator |
| DistortionCurve.CurveHasSignOfInput | src/hooks/useAudioEngine.ts:48-52 | for a non-negative amount every entry has the sign of its input |
| DistortionCurve.CurveIsOdd | src/hooks/useAudioEngine.ts:48-52 | the curve is odd |
| DistortionCurve.CurveBounded | src/hooks/useAudioEngine.ts:48-52 | on `[-1, 1]` the output stays strictly inside `(-1, 1)` |
| DistortionCurve.CurveCache.constructor | src/hooks/useAudioEngine.ts:41 | the cache starts empty |
| DistortionCurve.CurveCache.MakeDistortionCurve | src/hooks/useAudioEngine.ts:42-56 | a hit returns the very cached array and changes nothing; a miss stores and returns a fresh full table under the key |
| EngineGraph.EffectKey | src/hooks/useAudioEngine.ts:11-32 | no effect's record key is `volume` |
| EngineGraph.ChainOrderIsComplete | src/hooks/useAudioEngine.ts:349 | the chain lists all eight effects exactly once, and their keys differ |
| EngineGraph.EffectKeysDistinct | src/hooks/useAudioEngine.ts:11-20 | distinct effects have distinct keys |
| EngineGraph.AllOffCoversEveryPedal | src/hooks/useAudioEngine.ts:134-137 | every pedal starts off |
| EngineGraph.DefaultParamsWellFormed | src/hooks/useAudioEngine.ts:139-149 | the default record has every effect's fields, volume 0.8, drive gain 0.7 and distortion gain 0.8 |
| EngineGraph.UpdatedParams | src/hooks/useAudioEngine.ts:456-462 | an update keeps the record's keys |
| EngineGraph.UpdateParamTouchesOneField | src/hooks/useAudioEngine.ts:456-462 | exactly the one field changes, only when its entry is an object; otherwise the record is returned unchanged |
| EngineGraph.UpdateParamKeepsShape | src/hooks/useAudioEngine.ts:456-462 | an update keeps the record well formed and the volume unchanged |
| EngineGraph.VolumeUpdated | src/hooks/useAudioEngine.ts:464-465 | `setVolume` sets the volume and no effect field |
| EngineGraph.BypassTargets | src/hooks/useAudioEngine.ts:92-96 | dry and wet targets sum to 1; dry is 1 exactly when bypassed, wet is 1 exactly when not |
| EngineGraph.WrapperEdges | src/hooks/useAudioEngine.ts:75-84 | a wrapper makes its five internal connections |
| EngineGraph.AllWrapperEdges | src/hooks/useAudioEngine.ts:221-344 | five internal connections per stage |
| EngineGraph.WrapperEdgesInChainOrder | src/hooks/useAudioEngine.ts:221-344 | the stages are built in chain order |
| EngineGraph.ChainEdges | src/hooks/useAudioEngine.ts:349-354 | one series connection per stage |
| EngineGraph.ChainEdgeAt | src/hooks/useAudioEngine.ts:349-354 | the i-th series connection enters stage i from the previous stage's output, or from the source |
| EngineGraph.BuildWiresTheChain | src/hooks/useAudioEngine.ts:206-358 | source into the compressor, each stage into the next, reverb into master, master into both merger inputs, merger to the speakers, and nothing leaves the analyser |
| EngineGraph.SeriesLinksInBuild | src/hooks/useAudioEngine.ts:349-354 | the series links are all built |
| EngineGraph.OutputsInBuild | src/hooks/useAudioEngine.ts:355-358 | the output links are all built |
| EngineGraph.AnalyserIsATap | src/hooks/useAudioEngine.ts:211-215 | no connection leaves the analyser: it is a parallel tap, not in the signal path |
| EngineGraph.OutputsLeaveNoAnalyser | src/hooks/useAudioEngine.ts:355-358 | the output links do not start at the analyser |
| EngineGraph.TapBeforeOutputs | src/hooks/useAudioEngine.ts:211-354 | the tap, the wrappers and the series links do not start at the analyser |
| EngineGraph.TapAndWrappers | src/hooks/useAudioEngine.ts:211-344 | the tap and the wrappers do not start at the analyser |
| EngineGraph.NoEdgeLeavesAnalyser | src/hooks/useAudioEngine.ts:69-84 | no wrapper connection starts at the analyser |
| EngineGraph.ChainNeverLeavesAnalyser | src/hooks/useAudioEngine.ts:349-354 | no series connection starts at the analyser |
| EngineGraph.FilterSweeps | src/hooks/useAudioEngine.ts:241 | over `[0, 1]` the drive tone sweeps 3-8 kHz, the distortion tone 2-8 kHz (line 257) and the wah 200-2200 Hz (line 326), each increasing |
| EngineGraph.LiveUpdateMatchesRebuild | src/hooks/useAudioEngine.ts:470-508 | a live update agrees with a rebuild except on delay mix, reverb decay and reverb mix, keeps those three, and is idempotent |
| EngineGraph.WetMixChangesAreNotLive | src/hooks/useAudioEngine.ts:470-508 | changing delay mix, reverb decay or reverb mix reaches no node through the live update |
| EngineGraph.DelayMixIsNotLive | src/hooks/useAudioEngine.ts:499-501 | a delay-mix change leaves the live update's result alone |
| EngineGraph.ReverbFieldIsNotLive | src/hooks/useAudioEngine.ts:470-508 | a reverb decay or mix change leaves the live update's result alone |
| AudioEngine.SetBypass | src/hooks/useAudioEngine.ts:92-96 | both gains take the bypass targets |
| AudioEngine.SetBypassForgetsHistory | src/hooks/useAudioEngine.ts:86-96 | the targets do not depend on the previous ones; bypassing restores the new-wrapper state |
| AudioEngine.ErrorMessage | src/hooks/useAudioEngine.ts:400-404 | the shown text is never empty and is one of the four fixed texts or the error's own message |
| AudioEngine.ConnectErrorTexts | src/hooks/useAudioEngine.ts:367-404 | a denied permission shows its own explanation; the three named device errors show their fixed texts |
| AudioEngine.MeterLevelInRange | src/hooks/useAudioEngine.ts:196-198 | the meter level is in `[0, 1]` and saturates at 1 for an RMS of 0.2 or more |
| AudioEngine.StageFor | src/hooks/useAudioEngine.ts:231-344 | each built wrapper is wet exactly when its pedal is on |
| AudioEngine.ToggleFlipsOnePedal | src/hooks/useAudioEngine.ts:447-454 | exactly the one pedal flips, only its wrapper is retargeted (wet exactly when now on), nothing else changes |
| AudioEngine.ToggleTwiceRestores | src/hooks/useAudioEngine.ts:447-454 | toggling the same pedal twice restores the state |
| AudioEngine.DisconnectIsIdempotent | src/hooks/useAudioEngine.ts:412-445 | disconnecting reaches the disconnected state, keeps params, pedals, error and loading flag, and a second disconnect changes nothing |
| AudioEngine.VolumeSetChangesOnlyVolume | src/hooks/useAudioEngine.ts:464-467 | the volume changes, no effect field does, and the master gain follows only when it exists |
| AudioEngine.ToggleKeepsConsistent | src/hooks/useAudioEngine.ts:447-454 | toggling keeps the controller's invariant |
| AudioEngine.WrappersFollowToggle | src/hooks/useAudioEngine.ts:450-451 | retargeting the toggled wrapper keeps every wrapper in step with its pedal |
| AudioEngine.UpdateKeepsConsistent | src/hooks/useAudioEngine.ts:456-462 | a parameter update keeps the invariant |
| AudioEngine.VolumeKeepsConsistent | src/hooks/useAudioEngine.ts:464-467 | a volume change keeps the invariant |
| AudioEngine.FlagsKeepConsistent | src/hooks/useAudioEngine.ts:364-365 | the loading flag and the error text take no part in the invariant |
| AudioEngine.DisconnectKeepsConsistent | src/hooks/useAudioEngine.ts:412-445 | disconnecting keeps the invariant |
| AudioEngine.Stages | src/hooks/useAudioEngine.ts:221-346 | all eight wrappers exist, each set to its pedal |
| AudioEngine.FailureKeepsConsistent | src/hooks/useAudioEngine.ts:398-409 | a failed connection keeps the invariant |
| AudioEngine.ConnectKeepsConsistent | src/hooks/useAudioEngine.ts:363-395 | a connection keeps the invariant and the user's settings, and makes every wrapper wet exactly when its pedal is on |
| AudioEngine.LiveUpdateKeepsConsistent | src/hooks/useAudioEngine.ts:470-508 | the live update keeps the invariant |
| AudioEngine.Engine.constructor | src/hooks/useAudioEngine.ts:127-149 | every pedal off, default params, nothing connected, no error, not loading |
| AudioEngine.Engine.TogglePedal | src/hooks/useAudioEngine.ts:447-454 | the new state is `Toggled` of the old, with the invariant kept |
| AudioEngine.Engine.UpdateParam | src/hooks/useAudioEngine.ts:456-462 | only the parameter record changes, as `UpdatedParams` says |
| AudioEngine.Engine.SetVolume | src/hooks/useAudioEngine.ts:464-467 | the new state is `VolumeSet` of the old |
| AudioEngine.Engine.StartMeter | src/hooks/useAudioEngine.ts:190-200 | the meter interval runs, and a second start changes nothing |
| AudioEngine.Engine.StopMeter | src/hooks/useAudioEngine.ts:202-204 | the meter interval stops; nothing else changes |
| AudioEngine.Engine.MeterTick | src/hooks/useAudioEngine.ts:193-199 | without an analyser nothing changes; otherwise the input level becomes the frame's meter level |
| AudioEngine.Engine.TearDown | src/hooks/useAudioEngine.ts:412-444 | the new state is `Disconnected` of the old |
| AudioEngine.Engine.Disconnect | src/hooks/useAudioEngine.ts:412-445 | the new state is `Disconnected` of the old, with the invariant kept |
| AudioEngine.Engine.FetchCurves | src/hooks/useAudioEngine.ts:236-252 | the drive curve is cached for `gain * 0.5` and the distortion curve for `gain`; existing entries are kept |
| AudioEngine.Engine.BuildEffectsChain | src/hooks/useAudioEngine.ts:206-361 | the graph becomes the built graph for the current pedals, with the settings written from params and the cached curves |
| AudioEngine.Engine.MarkConnected | src/hooks/useAudioEngine.ts:386-409 | connected, meter and stats intervals running, not loading |
| AudioEngine.Engine.BeginConnect | src/hooks/useAudioEngine.ts:364-365 | loading, error cleared |
| AudioEngine.Engine.FailConnect | src/hooks/useAudioEngine.ts:398-409 | torn down, the error text shown, not loading |
| AudioEngine.Engine.OpenConnection | src/hooks/useAudioEngine.ts:370-397 | the state becomes `Connected` of the old, with the built settings |
| AudioEngine.Engine.Connect | src/hooks/useAudioEngine.ts:363-410 | a failure tears down and shows the classified message; a success connects with the master at the current volume |
| AudioEngine.Engine.RefreshedSettings | src/hooks/useAudioEngine.ts:474-507 | the values the live update writes, as `Refreshed` says |
| AudioEngine.Engine.RefreshLive | src/hooks/useAudioEngine.ts:470-508 | on a connected engine only the node settings change |
| AudioEngine.Engine.ApplyLiveParams | src/hooks/useAudioEngine.ts:470-508 | not connected: nothing changes; connected: the node settings are refreshed |
| HeaderTuner.StringsAscend | src/components/HeaderTuner.tsx:17-24 | six strings, strictly ascending, all positive |
| HeaderTuner.CentsDiff | src/components/HeaderTuner.tsx:26-28 | for a positive reading and a `log2` that is 0 only at 1, the deviation is 0 exactly on the target |
| HeaderTuner.Deltas | src/components/HeaderTuner.tsx:26-36 | the cents deviation from each string, in table order |
| HeaderTuner.BestOf | src/components/HeaderTuner.tsx:35-43 | the scan keeps the first string of least absolute deviation |
| HeaderTuner.ClosestIndex | src/components/HeaderTuner.tsx:30-46 | the closest string is one of the six |
| HeaderTuner.GetClosestString | src/components/HeaderTuner.tsx:30-46 | the loop returns the closest string and its deviation, no string being closer |
| HeaderTuner.ExactPitchPicksItsString | src/components/HeaderTuner.tsx:30-46 | playing a string exactly on pitch selects it with deviation 0 |
| HeaderTuner.DirectionOf | src/components/HeaderTuner.tsx:55-61 | `none` exactly without a closest string; otherwise `ok` within 5 cents, `tighten` below -5, `loosen` above 5 |
| HeaderTuner.RenderShowsTheClosestString | src/components/HeaderTuner.tsx:49-146 | the pitch flag's exact condition; placeholders without a pitch; with one: the closest string, the note, the colour by the 5-cent band, the octave only above 0, the clamped marker |
| TunerMeter.CentsTint | src/components/StageTuner.tsx:13-15 | in tune exactly within 5 cents, sharp exactly above 5, flat exactly below -5 |
| TunerMeter.MarkerPosition | src/components/StageTuner.tsx:18 | the marker is `cents + 50` percent, clamped to `[0, 100]` |
| TunerMeter.MarkerMonotone | src/components/HeaderTuner.tsx:69 | the marker moves right as the reading goes sharp: 0 at -50, 50 at 0, 100 at 50 |
| StageTuner.CentsColor | src/components/StageTuner.tsx:11-16 | muted exactly when off or disconnected; otherwise the 5-cent bands |
| StageTuner.RenderShowsOnlyLiveReadings | src/components/StageTuner.tsx:18-88 | off or disconnected shows placeholders only; the indicator shows exactly on a live reading with a note, in range; the octave shows exactly above 0 |
| StageTuner.SilentReadingLooksInTune | src/components/StageTuner.tsx:11-88 | a live tuner with the silent reading shows `--` in the in-tune colour |
| TunerPedal.CentsColor | src/components/pedals/TunerPedal.tsx:11-15 | never muted; in tune exactly within 5 cents |
| TunerPedal.CentsIndicator | src/components/pedals/TunerPedal.tsx:17-20 | linear in cents, clamped to `[0, 100]` |
| TunerPedal.RenderFollowsThePedal | src/components/pedals/TunerPedal.tsx:40-89 | off shows `-` only; on shows the reading's note and an in-range indicator; octave exactly above 0; frequency exactly when positive |
| TunerPedal.SilentReadingCentred | src/components/pedals/TunerPedal.tsx:11-89 | on and silent: `-`, the in-tune colour, the indicator centred |
| StageMetronome.ClickFrequency | src/components/StageMetronome.tsx:21 | 1000 Hz exactly for an accent, 800 Hz exactly otherwise |
| StageMetronome.SecondsPerBeat | src/components/StageMetronome.tsx:38 | the beat period is positive |
| StageMetronome.BpmAfter | src/components/StageMetronome.tsx:83-85 | the tempo stays in `[40, 240]`, is the exact sum inside, and saturates at the ends |
| StageMetronome.ScheduleStops | src/components/StageMetronome.tsx:35-43 | the loop ends at the first note time at or past the horizon, having queued one click per beat and stepped the counter as many times |
| StageMetronome.ScheduleTimes | src/components/StageMetronome.tsx:35-39 | click `i` sits `i` beats after the start, before the horizon |
| StageMetronome.ScheduleFrequencies | src/components/StageMetronome.tsx:36 | click `i`'s frequency is the one for counter value `b + i` |
| StageMetronome.ScheduleAccents | src/components/StageMetronome.tsx:36-41 | click `i` is 1000 Hz exactly when `(b + i) % 4 == 0`, otherwise 800 Hz |
| StageMetronome.ClicksAreOneBeatApart | src/components/StageMetronome.tsx:38-39 | consecutive clicks are one beat apart, so times strictly increase |
| StageMetronome.StartClicksAtOnce | src/components/StageMetronome.tsx:57-62 | `start()` queues an accented click at the current time first |
| StageMetronome.QueueNotes | src/components/StageMetronome.tsx:35-43 | the `while` loop computes the run `Schedule` specifies, counter in `[0, 4)` |
| StageMetronome.Clock.constructor | src/components/StageMetronome.tsx:4-10 | 120 bpm, stopped, beat 0, no context, no timer |
| StageMetronome.Clock.Scheduler | src/components/StageMetronome.tsx:29-46 | no context: nothing changes; otherwise the due clicks are queued with the closure's tempo and the timer re-armed |
| StageMetronome.Clock.Start | src/components/StageMetronome.tsx:48-63 | playing, with a context and an armed timer whose closure holds the current tempo; the clicks queued are one scheduler run from the current time with the counter at 0 |
| StageMetronome.Clock.TimerFires | src/components/StageMetronome.tsx:45 | the pending closure runs with the tempo it was created with |
| StageMetronome.Clock.Stop | src/components/StageMetronome.tsx:65-73 | timer cleared, stopped, beat 0 |
| StageMetronome.Clock.ChangeBpm | src/components/StageMetronome.tsx:83-85 | the tempo is clamped; the pending timer keeps its old tempo |
| Metronome.ClickFrequency | src/components/Metronome.tsx:28 | 1000 Hz exactly on beats `0 mod 4`, 800 Hz otherwise |
| Metronome.NextBeat | src/components/Metronome.tsx:35 | the beat stays in `[0, 4)`, wraps to 0 exactly from 3, and always moves |
| Metronome.ClickInterval | src/components/Metronome.tsx:40 | the period is positive and `period * bpm == 60000` |
| Metronome.IntervalInKnobRange | src/components/Metronome.tsx:40 | over the knob's range `[40, 240]` the period lies in `[250, 1500]` ms, shrinks as the tempo rises, and is 1500 at 40 and 250 at 240 |
| Metronome.AccentPattern | src/components/Metronome.tsx:28-35 | `n` successive clicks from beat `b`, click `i` at beat `b + i` |
| Metronome.Toggled | src/components/Metronome.tsx:109 | only the playing flag flips |
| Metronome.Click | src/components/Metronome.tsx:16-36 | one click for the current beat is appended, the beat steps, the context exists, nothing else changes |
| Metronome.EffectRun | src/components/Metronome.tsx:38-55 | playing: an immediate click and an interval of `60000 / bpm` ms; stopped: no interval and beat 0 |
| Metronome.Commit | src/components/Metronome.tsx:38-56 | the effect runs exactly when a dependency differs from the last run's |
| Metronome.AsWrittenNeverSettles | src/components/Metronome.tsx:16-56 | as written, `n` commits of a playing metronome play `n` clicks with no interval tick, and the state never settles |
| Metronome.AsWrittenClicksWithoutWaiting | src/components/Metronome.tsx:16-56 | as written, mount at 120 bpm, START and four commits play a whole bar |
| Metronome.AsWrittenCommit | src/components/Metronome.tsx:36-56 | a commit with the as-written dependency list `[isPlaying, bpm, playClick]` keeps the tempo and the playing flag |
| Metronome.AsWrittenCommits | src/components/Metronome.tsx:36-56 | repeated as-written commits keep the state well formed |
| Metronome.FixedCommit | src/components/Metronome.tsx:38-56 | the corrected effect runs with `[isPlaying, bpm]` as its dependencies |
| Metronome.Tick | src/components/Metronome.tsx:42 | an interval tick keeps the interval armed with the same period |
| Metronome.Ticks | src/components/Metronome.tsx:42 | any number of ticks keep the interval armed with the same period |
| Metronome.FixedCommitSettles | src/components/Metronome.tsx:38-56 | corrected, a second commit with nothing changed does nothing |
| Metronome.TickNeedsNoCommit | src/components/Metronome.tsx:35-56 | corrected, a tick does not re-run the effect and adds exactly one click |
| Metronome.TicksFollowTheAccents | src/components/Metronome.tsx:28-42 | `n` ticks play exactly the accent pattern of `n` clicks from the current beat |
| Metronome.StopThenStart | src/components/Metronome.tsx:38-56 | STOP clears the interval and resets the beat without a click; START clicks the downbeat at once and arms `60000 / bpm` |
| Metronome.Player.constructor | src/components/Metronome.tsx:9-14 | the mounted state |
| Metronome.Player.TogglePlaying | src/components/Metronome.tsx:109 | the new state is `Toggled` of the old |
| Metronome.Player.SetBpm | src/components/Metronome.tsx:98-105 | only the tempo changes |
| Metronome.Player.PlayClick | src/components/Metronome.tsx:16-36 | the new state is `Click` of the old |
| Metronome.Player.Commit | src/components/Metronome.tsx:38-56 | the corrected commit; an interval is armed exactly while playing |
| Metronome.Player.IntervalFires | src/components/Metronome.tsx:42 | one tick, with a period in `[250, 1500]` ms |
| PedalManager.MissingMethods | src/pages/PedalManager.tsx:150-156 | the errors are exactly the required names the code lacks |
| PedalManager.FieldOr | src/pages/PedalManager.tsx:189-194 | a non-empty capture, else the fallback |
| PedalManager.MetadataOf | src/pages/PedalManager.tsx:177-196 | metadata exists exactly when the `getMetadata` block matches |
| PedalManager.ParsedRows | src/pages/PedalManager.tsx:206-215 | one row per match, in match order |
| PedalManager.ParamsOf | src/pages/PedalManager.tsx:199-216 | parameters exist exactly when the `getParams` block matches; then one row per object match |
| PedalManager.ValidationOf | src/pages/PedalManager.tsx:229-235 | valid exactly when no error was pushed |
| PedalManager.CheckRequiredMethods | src/pages/PedalManager.tsx:150-156 | the method loop pushes the missing-method errors in list order |
| PedalManager.ExtractParams | src/pages/PedalManager.tsx:199-216 | the `matchAll` loop builds the parameter rows |
| PedalManager.CollectErrors | src/pages/PedalManager.tsx:150-164 | the method, node and metadata errors in push order (metadata at lines 221-223) |
| PedalManager.CollectCautions | src/pages/PedalManager.tsx:167-169 | the export warning, then the no-parameters warning (lines 225-227) |
| PedalManager.ValidatePedalCode | src/pages/PedalManager.tsx:138-236 | returns what `ValidationOf` specifies |
| PedalManager.ValidIffComplete | src/pages/PedalManager.tsx:138-236 | valid exactly with a class, all six methods, `this.input`, `this.output` and a metadata block |
| PedalManager.NoClassIsOneError | src/pages/PedalManager.tsx:143-147 | without a class: invalid, the one error, no warnings, nothing extracted |
| PedalManager.ErrorsInOrder | src/pages/PedalManager.tsx:149-223 | with a class the error count is the missing methods plus one per missing node and one for missing metadata |
| PedalManager.MetadataDefaults | src/pages/PedalManager.tsx:188-195 | each missing field takes its default text: CUSTOM, Effect, the two colours, Unknown, 1.0.0 |
| PedalManager.ToggleHidden | src/pages/PedalManager.tsx:382-386 | the pedals with the id flip `isHidden`; every other entry is unchanged |
| PedalManager.ToggleOnBoard | src/pages/PedalManager.tsx:389-393 | the pedals with the id flip `isOnBoard`; every other entry is unchanged |
| PedalManager.TogglesAreInvolutions | src/pages/PedalManager.tsx:382-393 | each toggle undoes itself, and the two toggles commute |
| PedalManager.DeletePedal | src/pages/PedalManager.tsx:396-398 | exactly the entries without the id remain |
| PedalManager.DeleteAbsentIsIdentity | src/pages/PedalManager.tsx:396-398 | deleting an absent id changes nothing |
| PedalManager.DeleteIsIdempotent | src/pages/PedalManager.tsx:396-398 | deleting twice is deleting once |
| PedalManager.DeleteDistributes | src/pages/PedalManager.tsx:396-398 | deletion keeps order: it distributes over concatenation |
| PedalManager.DeleteUndoesAdd | src/pages/PedalManager.tsx:358-398 | adding a pedal with a fresh id and deleting it restores the library |
| PedalManager.AddPedal | src/pages/PedalManager.tsx:358-379 | without a valid validation with metadata nothing changes; otherwise one pedal is appended with the metadata, code and params, shown and on the board, and the upload is cleared |
| PedalManager.EditSave | src/pages/PedalManager.tsx:641-656 | invalid new code changes nothing; valid code updates exactly the edited pedal's code, name, subtitle, colours and params |
| Presets.Filter | src/lib/presets.ts:165-167 | the filter never grows the list |
| Presets.FilterMembers | src/lib/presets.ts:165-167 | the filter keeps exactly the entries of the category |
| Presets.FilterDistributes | src/lib/presets.ts:165-167 | the filter keeps table order |
| Presets.PresetsByCategory | src/lib/presets.ts:165-167 | a preset is listed exactly when it is in the table with that category |
| Presets.CategoryCount | src/lib/presets.ts:12-167 | each category lists its tally of presets; `custom` lists none |
| Presets.CategoriesPartition | src/lib/presets.ts:12-167 | the category lists partition the table |
| Presets.Find | src/lib/presets.ts:169-171 | the first entry with the id, or none exactly when no entry has it |
| Presets.PresetById | src/lib/presets.ts:169-171 | a table entry with the id, or none exactly when no entry has it |
| Presets.IdsAreDistinct | src/lib/presets.ts:12-163 | the seven ids are distinct, so every entry is found by its own id |
| Presets.VolumesInRange | src/lib/presets.ts:12-163 | every preset sets a volume in `(0, 1]` |
| Knob.DragValue | src/components/Knob.tsx:34-38 | the dragged value is clamped to the range and is the unclamped value when that is in range |
| Knob.FullSpanCoversTheRange | src/components/Knob.tsx:35-38 | dragging 150 px up from `min` reaches `max`, and down from `max` reaches `min` |
| Knob.DragIsMonotone | src/components/Knob.tsx:35-38 | moving the mouse further up never lowers the value |
| Knob.Rotation | src/components/Knob.tsx:19-20 | an in-range value on a proper range points within the -135 to 135 degree sweep |
| Knob.RotationSweep | src/components/Knob.tsx:19-20 | -135 degrees at `min`, 135 at `max`, monotone, and within the sweep for in-range values |
| Knob.TickAngles | src/components/Knob.tsx:69-70 | eleven ticks at `-135 + 27 i` |
| Knob.TicksMatchTheSweep | src/components/Knob.tsx:19-70 | ticks run -135 to 135 symmetric about 0, and tick `i` is the indicator angle at `i / 10` of the range |
| Knob.Gesture.constructor | src/components/Knob.tsx:15-17 | not dragging, refs 0 |
| Knob.Gesture.MouseDown | src/components/Knob.tsx:28-33 | dragging, with the mouse height, value and range recorded |
| Knob.Gesture.MouseMove | src/components/Knob.tsx:34-40 | the value passed on is `DragValue` of the recorded state, in range |
| Knob.Gesture.MouseUp | src/components/Knob.tsx:42-46 | not dragging; the records are unchanged |
| ParamControl.ComputedStep | src/components/ParamControl.tsx:26 | `step ?? (max - min) / 20`: only a missing step takes the default |
| ParamControl.Percentage | src/components/ParamControl.tsx:27 | an in-range value on a proper range shows between 0 and 100 percent |
| ParamControl.PercentageEnds | src/components/ParamControl.tsx:27 | 0 at `min`, 100 at `max` |
| ParamControl.Decrement | src/components/ParamControl.tsx:35-38 | at least `min` and at least `value - step`, either `min` or `value - step`, and `min` stays `min` |
| ParamControl.Increment | src/components/ParamControl.tsx:40-43 | at most `max` and at most `value + step`, either `max` or `value + step`, and `max` stays `max` |
| ParamControl.StepsUndoEachOther | src/components/ParamControl.tsx:35-43 | away from the ends one press of either button is undone by one press of the other |
| ParamControl.ZeroStepIsKept | src/components/ParamControl.tsx:26-43 | an explicit zero step is kept, so both buttons leave an in-range value alone |
| ParamControl.DefaultStepIsAtwentieth | src/components/ParamControl.tsx:26 | the default step is positive on a proper range, and twenty of them span it |
| ParamSlider.StepVal | src/components/ParamSlider.tsx:15 | `step \|\| (max - min) / 20`: a missing step and a zero step both take the default |
| ParamSlider.NormalizedPercent | src/components/ParamSlider.tsx:14 | an in-range value on a proper range fills between 0 and 100 percent |
| ParamSlider.PercentEnds | src/components/ParamSlider.tsx:14 | 0 at `min`, 100 at `max` |
| ParamSlider.Decrement | src/components/ParamSlider.tsx:17 | at least `min` and at least `value - step`, and either `min` or `value - step` |
| ParamSlider.Increment | src/components/ParamSlider.tsx:18 | at most `max` and at most `value + step`, and either `max` or `value + step` |
| ParamSlider.StepsUndoEachOther | src/components/ParamSlider.tsx:17-18 | away from the ends one press of either button is undone by one press of the other |
| ParamSlider.StepsMoveTheRightWay | src/components/ParamSlider.tsx:17-18 | with a positive step, decrement moves down and increment up, strictly unless at the end, in range |
| ParamSlider.ZeroStepDiffers | src/components/ParamSlider.tsx:15 | the two controls disagree on a zero step: the slider's default is nonzero, the plus/minus control keeps 0 |
| AdminPanel.FirstRecord | src/pages/AdminPanel.tsx:33 | `find`: the first role record for the id, none before it, or none at all |
| AdminPanel.RoleOf | src/pages/AdminPanel.tsx:37 | the resolved role is never empty |
| AdminPanel.Merge | src/pages/AdminPanel.tsx:32-39 | one item per profile in profile order, with the profile's id and name and the resolved role |
| AdminPanel.MergedList | src/pages/AdminPanel.tsx:31-39 | missing arrays read as empty: one item per profile, none without profiles |
| AdminPanel.RoleIsTheFirstRecord | src/pages/AdminPanel.tsx:33-37 | an item's role is the first matching record's non-empty role, else `user` |
| AdminPanel.NoRecordMeansUser | src/pages/AdminPanel.tsx:33-37 | with no matching record the role is `user` |
| AdminPanel.OtherRecordsDoNotMatter | src/pages/AdminPanel.tsx:33 | records for other users, before or after, do not change a role |
| AdminPanel.DeleteGuard | src/pages/AdminPanel.tsx:158 | deletion is offered exactly when the first matching record does not say `admin` |
| AdminPanel.CreateErrorText | src/pages/AdminPanel.tsx:62 | never empty: the body's error first, then the call's message, then the default text |
| AdminPanel.RefetchAfterDelete | src/pages/AdminPanel.tsx:73-83 | the list is fetched again exactly when confirmed and neither error came back |
| AdminPanel.Page.constructor | src/pages/AdminPanel.tsx:14-20 | empty list and form, not creating, no messages |
| AdminPanel.Page.FetchUsers | src/pages/AdminPanel.tsx:22-42 | with a session and data the list becomes the merged list; otherwise it stays; the form is untouched |
| AdminPanel.Page.Type | src/pages/AdminPanel.tsx:109-133 | the three inputs take the typed values |
| AdminPanel.Page.SubmitCreate | src/pages/AdminPanel.tsx:46-59 | both messages cleared, creating, the request built from the form |
| AdminPanel.Page.FinishCreate | src/pages/AdminPanel.tsx:61-70 | on error the error text is shown and the form kept; on success the form is emptied and the success text shown; never both messages; creating ends |

## Left out

- Audio processing itself is left out, as foreign Web Audio behaviour. This covers filter, delay, oscillator, compressor and wave-shaper output, the `setTargetAtTime` ramps, and the reverb's internal feedback network. The model keeps gain targets, connections and written parameter values.
- Float32 storage and rounding are left out; samples are exact reals. `Math.log2`, `Math.sqrt` and `Math.PI` appear as parameters or as a constant. Tuning accuracy is not claimed.
- Permissions, microphone access and the audio context are parameters:
  - `checkPermission` is a `Permission` value;
  - `getUserMedia` is a `MediaOutcome`;
  - context creation and `resume()` always succeed.
- The performance-stats computation (CPU, memory, latency) is left out. Only the interval's running flag and the reset of the stats are modelled.
- `console.log` calls and the unmount cleanup effects are left out.
- `updateParam` accepts booleans in the source. No caller passes one, so the model takes numbers only.
- Timers are left out: `setInterval` and `setTimeout` periods, and real time. Only the callbacks' bodies are modelled, with the interval period as a value.
- The custom-pedal page's side effects are left out: `localStorage`, `FileReader`, file upload, the template download, and `handleCodeChange`. The latter stores the text; it clears the validation result when the text is empty or whitespace, and otherwise sets it to `validatePedalCode` of the text, which is modelled.
- Regular expressions are abstract predicates and functions in `PedalManager.Patterns`. `includes` is modelled exactly.
- The `try`/`catch` around metadata extraction is left out. String matching cannot throw there, so its warning is never pushed.
- `Date.now()` and `new Date()` are parameters of `PedalManager.AddPedal`.
- The administration page's network calls (`getSession` and the `manage-users` function) are parameters. So is `confirm()`. The refetch after a successful create or delete is returned as a flag; the refetch is then a separate `FetchUsers` call.
- Rendering markup, styling and icons are left out. The render functions keep only the values the markup uses.
- Knob.RotationSweep, ParamControl.PercentageEnds and ParamSlider.PercentEnds: the source divides by `max - min`, which gives NaN or Infinity when `min == max`. The model requires `min != max` (a proper range for the lemmas), and does not model that case.
- AudioEngine.Engine.Connect: the connection is one atomic step. In the source, `connect` awaits the permission check, `getUserMedia` and `resume()`, and its callback captured `params.volume` and a `buildEffectsChain` holding the `params` and `pedalState` of the render that created it (src/hooks/useAudioEngine.ts:361, 367-385, 410). A `togglePedal` or `setVolume` during those awaits changes the state while no wrapper and no master gain exist yet, and the chain is then built from the captured pedal state and volume. The wrappers' bypass and the master gain can therefore disagree with the state, and the live-update effect does not correct bypass or master. The model does not capture this interleaving.
- AudioEngine.Engine.Connect, AudioEngine.Engine.BuildEffectsChain, AudioEngine.Engine.FetchCurves, AudioEngine.Engine.OpenConnection, AudioEngine.Engine.RefreshLive and AudioEngine.Engine.ApplyLiveParams require non-negative drive and distortion gains (the knobs range over `[0, 1]`). With a negative gain the curve's denominator `PI + k * |x|` can reach 0, and that case is not modelled.
- DistortionCurve.CurveCache.MakeDistortionCurve requires a non-negative amount for the same reason.
- AutoCorrelation.AutoCorrelate, YinDetector.Yin and PitchDetection.RawEstimate require a positive sample rate. The source takes the audio context's rate, which is always positive, and the model does not cover a zero or negative rate.
- Metronome.Player.constructor and Metronome.Player.SetBpm require a tempo in `[40, 240]`. The knob keeps the tempo there. The `initialBpm` prop is not range-checked by the source, so an out-of-range prop is not modelled.
- Metronome.Player.Commit models the corrected dependency list; the as-written list is modelled by `Metronome.AsWrittenCommit` (see Findings). Player also folds the effect's cleanup into the next run's single write of the interval.

## Findings

| source | as written | input that shows it | evidently intended | confidence | as-written member | corrected member |
|---|---|---|---|---|---|---|
| src/components/Metronome.tsx:16-56 | `playClick` depends on `[beat]` and the effect depends on `playClick`, so every click re-creates `playClick` and the next commit re-runs the effect, which clicks again at once | mount at 120 bpm, press START, four commits | one click per interval period of `60000 / bpm` ms, accented every fourth beat | not executed | Metronome.AsWrittenClicksWithoutWaiting | Metronome.TicksFollowTheAccents |
