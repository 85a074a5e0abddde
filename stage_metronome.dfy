/** The stage metronome: a look-ahead scheduler that, on every timer tick, queues every click due
    within the next 0.1 s on the audio clock, four beats to the bar with the first accented. */
module StageMetronome {
  import opened Numerics

  /** One queued click: its start time on the audio clock and its oscillator frequency. */
  datatype Note = Note(time: real, frequency: real)

  const ScheduleAhead: real := 0.1
  const MinBpm: int := 40
  const MaxBpm: int := 240

  /** `isAccent ? 1000 : 800`. */
  function ClickFrequency(isAccent: bool): (hz: real)
    ensures hz == 1000.0 <==> isAccent
    ensures hz == 800.0 <==> !isAccent
  {
    if isAccent then 1000.0 else 800.0
  }

  /** `60.0 / bpm`. */
  function SecondsPerBeat(bpm: int): (s: real)
    requires bpm > 0
    ensures s > 0.0
  {
    60.0 / bpm as real
  }

  /** `handleBpmChange(delta)`: `Math.max(40, Math.min(240, prev + delta))`. */
  function BpmAfter(prev: int, delta: int): (r: int)
    ensures MinBpm <= r <= MaxBpm
    ensures MinBpm <= prev + delta <= MaxBpm ==> r == prev + delta
    ensures prev + delta > MaxBpm ==> r == MaxBpm
    ensures prev + delta < MinBpm ==> r == MinBpm
  {
    if prev + delta > MaxBpm then MaxBpm
    else if prev + delta < MinBpm then MinBpm
    else prev + delta
  }

  /** What one run of the scheduler loop produces: the clicks queued, and where it leaves the
      next note time and the beat counter. */
  datatype Run = Run(notes: seq<Note>, next: real, beat: int)

  /** The loop `while (next < horizon) { scheduleNote(next, beat % 4 === 0); next += step;
      beat = (beat + 1) % 4 }` from `next = t`, `beat = b`. */
  function Schedule(t: real, b: int, step: real, horizon: real): (r: Run)
    requires step > 0.0
    decreases ((horizon - t) / step).Floor
  {
    if t >= horizon then Run([], t, b)
    else
      StepShrinksMeasure(t, step, horizon);
      var rest := Schedule(t + step, (b + 1) % 4, step, horizon);
      Run([Note(t, ClickFrequency(b % 4 == 0))] + rest.notes, rest.next, rest.beat)
  }

  lemma StepShrinksMeasure(t: real, step: real, horizon: real)
    requires step > 0.0 && t < horizon
    ensures 0 <= ((horizon - t) / step).Floor
    ensures ((horizon - (t + step)) / step).Floor == ((horizon - t) / step).Floor - 1
  {
    var x := horizon - t;
    QuotientPositive(x, step);
    OneStepLess(x, step);
  }

  lemma OneStepLess(x: real, step: real)
    requires step > 0.0
    ensures (x - step) / step == x / step - 1.0
  {
    var q := x / step;
    var r := (x - step) / step;
    assert q * step == x;
    assert r * step == x - step;
    assert (r - (q - 1.0)) * step == 0.0;
    ZeroFactor(r - (q - 1.0), step);
  }

  lemma ZeroFactor(e: real, step: real)
    requires step > 0.0 && e * step == 0.0
    ensures e == 0.0
  {
  }

  /** `i` steps of `step` after `t`. */
  function TimeAfter(t: real, i: nat, step: real): real
  {
    t + i as real * step
  }

  lemma {:induction false} TimeAfterNext(t: real, i: nat, step: real)
    ensures TimeAfter(t + step, i, step) == TimeAfter(t, i + 1, step)
  {
    assert (i + 1) as real * step == i as real * step + step;
  }

  /** The loop stops at the first note time at or past the horizon, having advanced exactly one
      step per click; a start before the horizon queues at least the click at `t`, and the
      counter has advanced once per click. */
  lemma {:induction false} ScheduleStops(t: real, b: int, step: real, horizon: real)
    requires step > 0.0 && 0 <= b < 4
    ensures var r := Schedule(t, b, step, horizon);
      && r.next >= horizon
      && r.next == TimeAfter(t, |r.notes|, step)
      && (|r.notes| == 0 <==> t >= horizon)
      && r.beat == (b + |r.notes|) % 4
    decreases ((horizon - t) / step).Floor
  {
    if t < horizon {
      StepShrinksMeasure(t, step, horizon);
      ScheduleStops(t + step, (b + 1) % 4, step, horizon);
      var n := |Schedule(t + step, (b + 1) % 4, step, horizon).notes|;
      TimeAfterNext(t, n, step);
      CounterStep(b, n + 1);
    }
  }

  /** Advancing the counter once and then `i - 1` more times is advancing it `i` times. */
  lemma CounterStep(b: int, i: int)
    ensures ((b + 1) % 4 + (i - 1)) % 4 == (b + i) % 4
  {
  }

  /** Click `i` sits `i` beats after `t`, before the horizon. */
  lemma {:induction false} ScheduleTimes(t: real, b: int, step: real, horizon: real)
    requires step > 0.0
    ensures var notes := Schedule(t, b, step, horizon).notes;
      forall i :: 0 <= i < |notes| ==> notes[i].time == TimeAfter(t, i, step) && notes[i].time < horizon
    decreases ((horizon - t) / step).Floor
  {
    if t < horizon {
      StepShrinksMeasure(t, step, horizon);
      ScheduleTimes(t + step, (b + 1) % 4, step, horizon);
      var rest := Schedule(t + step, (b + 1) % 4, step, horizon).notes;
      assert Schedule(t, b, step, horizon).notes == [Note(t, ClickFrequency(b % 4 == 0))] + rest;
      FirstClickThenRest(t, step, horizon, Note(t, ClickFrequency(b % 4 == 0)), rest);
    }
  }

  /** A click at `t` followed by clicks a beat apart from `t + step` are clicks a beat apart from `t`. */
  lemma {:induction false} FirstClickThenRest(t: real, step: real, horizon: real, first: Note, rest: seq<Note>)
    requires first.time == t && t < horizon
    requires forall i :: 0 <= i < |rest| ==> rest[i].time == TimeAfter(t + step, i, step) && rest[i].time < horizon
    ensures forall i :: 0 <= i < |[first] + rest| ==>
              ([first] + rest)[i].time == TimeAfter(t, i, step) && ([first] + rest)[i].time < horizon
  {
    var notes := [first] + rest;
    forall i | 0 <= i < |notes|
      ensures notes[i].time == TimeAfter(t, i, step) && notes[i].time < horizon
    {
      if i == 0 {
        assert notes[0] == first;
      } else {
        assert notes[i] == rest[i - 1];
        TimeAfterNext(t, i - 1, step);
      }
    }
  }

  /** Click `i` is the accent or plain click for the counter value `(b + i) % 4`. */
  lemma {:induction false} ScheduleFrequencies(t: real, b: int, step: real, horizon: real)
    requires step > 0.0
    ensures forall i :: 0 <= i < |Schedule(t, b, step, horizon).notes| ==>
              Schedule(t, b, step, horizon).notes[i].frequency == ClickFrequency(Downbeat(b + i))
    decreases ((horizon - t) / step).Floor
  {
    if t < horizon {
      StepShrinksMeasure(t, step, horizon);
      var b' := (b + 1) % 4;
      ScheduleFrequencies(t + step, b', step, horizon);
      var rest := Schedule(t + step, b', step, horizon).notes;
      assert Schedule(t, b, step, horizon).notes == [Note(t, ClickFrequency(b % 4 == 0))] + rest;
      FirstAccentThenRest(b, Note(t, ClickFrequency(b % 4 == 0)), rest);
    }
  }

  /** The click for counter `b` followed by the clicks for counters from `b + 1` on are the clicks
      for counters from `b` on. */
  lemma {:induction false} FirstAccentThenRest(b: int, first: Note, rest: seq<Note>)
    requires first.frequency == ClickFrequency(b % 4 == 0)
    requires forall i :: 0 <= i < |rest| ==> rest[i].frequency == ClickFrequency(Downbeat((b + 1) % 4 + i))
    ensures forall i :: 0 <= i < |[first] + rest| ==>
              ([first] + rest)[i].frequency == ClickFrequency(Downbeat(b + i))
  {
    var notes := [first] + rest;
    forall i | 0 <= i < |notes|
      ensures notes[i].frequency == ClickFrequency(Downbeat(b + i))
    {
      if i == 0 {
        assert notes[0] == first;
      } else {
        assert notes[i] == rest[i - 1];
        CounterStep(b, i);
      }
    }
  }

  /** The counter reads 0 mod 4. */
  predicate Downbeat(n: int)
  {
    n % 4 == 0
  }

  /** Click `i` is accented (1000 Hz) exactly when the counter, started at `b`, reads 0 mod 4 on
      it, and is an 800 Hz click otherwise; from beat 0, every fourth click is accented. */
  lemma {:induction false} ScheduleAccents(t: real, b: int, step: real, horizon: real)
    requires step > 0.0
    ensures var notes := Schedule(t, b, step, horizon).notes;
      && (forall i :: 0 <= i < |notes| ==> (notes[i].frequency == 1000.0 <==> (b + i) % 4 == 0))
      && (forall i :: 0 <= i < |notes| ==> (notes[i].frequency == 800.0 <==> (b + i) % 4 != 0))
  {
    ScheduleFrequencies(t, b, step, horizon);
  }

  /** Consecutive clicks are exactly one beat apart, so clicks are queued in strictly increasing
      time order. */
  lemma {:induction false} ClicksAreOneBeatApart(t: real, b: int, step: real, horizon: real)
    requires step > 0.0
    ensures var notes := Schedule(t, b, step, horizon).notes;
      && (forall i :: 0 < i < |notes| ==> notes[i].time - notes[i - 1].time == step)
      && (forall i, j :: 0 <= i < j < |notes| ==> notes[i].time < notes[j].time)
  {
    ScheduleTimes(t, b, step, horizon);
    var notes := Schedule(t, b, step, horizon).notes;
    forall i | 0 < i < |notes|
      ensures notes[i].time - notes[i - 1].time == step
    {
      TimeAfterNext(t, i - 1, step);
      TimeAfterNext(t - step, i, step);
      assert (i - 1) as real * step == i as real * step - step;
    }
    forall i, j | 0 <= i < j < |notes|
      ensures notes[i].time < notes[j].time
    {
      LaterStepLater(t, i, j, step);
    }
  }

  lemma LaterStepLater(t: real, i: nat, j: nat, step: real)
    requires i < j && step > 0.0
    ensures TimeAfter(t, i, step) < TimeAfter(t, j, step)
  {
    assert j as real * step - i as real * step == (j - i) as real * step;
    assert (j - i) as real * step > 0.0;
  }

  /** A run started by `start()` queues an accented click at the current time first. */
  lemma {:induction false} StartClicksAtOnce(now: real, step: real)
    requires step > 0.0
    ensures var notes := Schedule(now, 0, step, now + ScheduleAhead).notes;
      |notes| > 0 && notes[0] == Note(now, 1000.0)
  {
    ScheduleStops(now, 0, step, now + ScheduleAhead);
  }

  /** The `while` loop of `scheduler`, on the next note time and the beat counter. */
  method QueueNotes(start: real, b: int, step: real, horizon: real) returns (queued: seq<Note>, next: real, beat: int)
    requires step > 0.0 && 0 <= b < 4
    ensures Run(queued, next, beat) == Schedule(start, b, step, horizon)
    ensures 0 <= beat < 4
  {
    queued, next, beat := [], start, b;
    while next < horizon
      invariant 0 <= beat < 4
      invariant var rest := Schedule(next, beat, step, horizon);
        Schedule(start, b, step, horizon) == Run(queued + rest.notes, rest.next, rest.beat)
      decreases ((horizon - next) / step).Floor
    {
      StepShrinksMeasure(next, step, horizon);
      queued := queued + [Note(next, ClickFrequency(beat % 4 == 0))];
      next := next + step;
      beat := (beat + 1) % 4;
    }
  }

  class Clock {
    var bpm: int
    var isPlaying: bool
    /** The `beat` state the four lights show. */
    var beat: int
    var hasContext: bool
    var nextNoteTime: real
    /** A scheduler timeout is pending. */
    var timerArmed: bool
    var beatRef: int
    /** The tempo the pending timer's `scheduler` closure was created with. */
    var schedulerBpm: int
    /** Every click handed to the audio clock so far. */
    var scheduled: seq<Note>

    ghost predicate Valid()
      reads this
    {
      MinBpm <= bpm <= MaxBpm && MinBpm <= schedulerBpm <= MaxBpm && 0 <= beatRef < 4 && beat == beatRef
    }

    constructor ()
      ensures Valid() && bpm == 120 && !isPlaying && beat == 0 && !hasContext && !timerArmed && scheduled == []
    {
      bpm := 120;
      isPlaying := false;
      beat := 0;
      hasContext := false;
      nextNoteTime := 0.0;
      timerArmed := false;
      beatRef := 0;
      schedulerBpm := 120;
      scheduled := [];
    }

    /** `scheduler()` at audio time `currentTime`: queue every click due before
        `currentTime + 0.1`, then re-arm the 25 ms timeout. Without a context it does nothing.
        The fields `nextNoteTimeRef` and `beatRef` are advanced together with each click. */
    method Scheduler(currentTime: real)
      requires Valid()
      modifies this
      ensures Valid()
      ensures !old(hasContext) ==> unchanged(this)
      ensures old(hasContext) ==>
        var r := Schedule(old(nextNoteTime), old(beatRef), SecondsPerBeat(schedulerBpm), currentTime + ScheduleAhead);
        && scheduled == old(scheduled) + r.notes && nextNoteTime == r.next && beatRef == r.beat && timerArmed
        && bpm == old(bpm) && isPlaying == old(isPlaying) && hasContext && schedulerBpm == old(schedulerBpm)
    {
      if !hasContext {
        return;
      }
      var queued, next, b := QueueNotes(nextNoteTime, beatRef, SecondsPerBeat(schedulerBpm), currentTime + ScheduleAhead);
      scheduled := scheduled + queued;
      nextNoteTime := next;
      beatRef := b;
      beat := b;
      timerArmed := true;
    }

    /** `start()`: a context if there is none, beat 0, first note now, playing, and one scheduler
        run on the current tempo. */
    method Start(currentTime: real)
      requires Valid()
      modifies this
      ensures Valid() && isPlaying && hasContext && timerArmed && schedulerBpm == bpm == old(bpm)
      ensures var r := Schedule(currentTime, 0, SecondsPerBeat(bpm), currentTime + ScheduleAhead);
        scheduled == old(scheduled) + r.notes && nextNoteTime == r.next && beatRef == r.beat
    {
      hasContext := true;
      beatRef := 0;
      beat := 0;
      nextNoteTime := currentTime;
      isPlaying := true;
      schedulerBpm := bpm;
      Scheduler(currentTime);
    }

    /** The pending timeout fires: the closure it holds runs, with the tempo it was created with. */
    method TimerFires(currentTime: real)
      requires Valid() && timerArmed
      modifies this
      ensures Valid()
      ensures old(hasContext) ==>
        var r := Schedule(old(nextNoteTime), old(beatRef), SecondsPerBeat(old(schedulerBpm)), currentTime + ScheduleAhead);
        scheduled == old(scheduled) + r.notes && nextNoteTime == r.next && beatRef == r.beat && timerArmed
    {
      Scheduler(currentTime);
    }

    /** `stop()`: the timeout cleared, not playing, beat back to 0. */
    method Stop()
      requires Valid()
      modifies this
      ensures Valid()
      ensures !timerArmed && !isPlaying && beat == 0 && beatRef == 0
      ensures scheduled == old(scheduled) && bpm == old(bpm) && nextNoteTime == old(nextNoteTime)
    {
      timerArmed := false;
      isPlaying := false;
      beat := 0;
      beatRef := 0;
    }

    /** The −5 / +5 buttons. The pending timer keeps the tempo it was created with. */
    method ChangeBpm(delta: int)
      requires Valid()
      modifies this
      ensures Valid()
      ensures bpm == BpmAfter(old(bpm), delta)
      ensures schedulerBpm == old(schedulerBpm) && scheduled == old(scheduled) && timerArmed == old(timerArmed)
    {
      bpm := BpmAfter(bpm, delta);
    }
  }
}
