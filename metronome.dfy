/** The practice metronome: a click every `(60 / bpm) * 1000` ms driven by an effect that arms
    an interval, an accent on every fourth beat, and a beat counter reset on stop.

    The component's behaviour is a React effect re-run whenever one of its dependencies changes.
    The state below records what the effect last ran with, so that a commit (the render that
    follows a state change) runs the effect exactly when React would. */
module Metronome {
  import opened Numerics

  /** The tempo knob's range. */
  const MinBpm: real := 40.0
  const MaxBpm: real := 240.0

  /** `beat % 4 === 0 ? 1000 : 800`. */
  function ClickFrequency(beat: int): (hz: real)
    ensures hz == 1000.0 <==> beat % 4 == 0
    ensures hz == 800.0 <==> beat % 4 != 0
  {
    if beat % 4 == 0 then 1000.0 else 800.0
  }

  /** `setBeat((b) => (b + 1) % 4)`. */
  function NextBeat(b: int): (n: int)
    requires 0 <= b
    ensures 0 <= n < 4
    ensures n == 0 <==> b % 4 == 3
    ensures b < 4 ==> n != b
  {
    (b + 1) % 4
  }

  /** `(60 / bpm) * 1000`, the interval period in milliseconds. */
  function ClickInterval(bpm: real): (ms: real)
    requires bpm > 0.0
    ensures ms > 0.0
    ensures ms * bpm == 60000.0
  {
    (60.0 / bpm) * 1000.0
  }

  /** Over the knob's range the period runs from 1500 ms at 40 bpm down to 250 ms at 240 bpm,
      and a faster tempo never gives a longer period. */
  lemma {:induction false} IntervalInKnobRange(bpm: real, faster: real)
    requires MinBpm <= bpm <= faster <= MaxBpm
    ensures 250.0 <= ClickInterval(bpm) <= 1500.0
    ensures ClickInterval(faster) <= ClickInterval(bpm)
    ensures ClickInterval(MinBpm) == 1500.0 && ClickInterval(MaxBpm) == 250.0
  {
  }

  /** The clicks `n` successive beats from `b` produce. */
  function AccentPattern(b: int, n: nat): (p: seq<real>)
    ensures |p| == n
    ensures forall i :: 0 <= i < n ==> p[i] == ClickFrequency(b + i)
  {
    seq(n, i requires 0 <= i < n => ClickFrequency(b + i))
  }

  lemma {:induction false} PatternShifts(b: int, n: nat)
    requires 0 <= b && n > 0
    ensures [ClickFrequency(b)] + AccentPattern(NextBeat(b), n - 1) == AccentPattern(b, n)
  {
    var p := [ClickFrequency(b)] + AccentPattern(NextBeat(b), n - 1);
    forall i | 0 < i < n
      ensures p[i] == ClickFrequency(b + i)
    {
      assert (NextBeat(b) + (i - 1)) % 4 == (b + i) % 4;
    }
  }

  /** One click of the pattern, taken off its front and appended to the clicks already played. */
  lemma {:induction false} ClicksShift(c: seq<real>, b: int, n: nat)
    requires 0 <= b && n > 0
    ensures c + AccentPattern(b, n) == (c + [ClickFrequency(b)]) + AccentPattern(NextBeat(b), n - 1)
    ensures (NextBeat(b) + (n - 1)) % 4 == (b + n) % 4
  {
    PatternShifts(b, n);
    assert (c + [ClickFrequency(b)]) + AccentPattern(NextBeat(b), n - 1)
        == c + ([ClickFrequency(b)] + AccentPattern(NextBeat(b), n - 1));
  }

  /** The effect's dependency values. `playClick` is a `useCallback` over `[beat]`, so its
      identity is a function of the beat it closed over: `Some(beat)` as written, `None` once it
      no longer depends on `beat`. */
  datatype Deps = Deps(isPlaying: bool, bpm: real, playClick: Option<int>)

  /** The component's state (`bpm`, `isPlaying`, `beat`), whether the audio context exists, the
      clicks played so far (their frequencies), the armed interval's period (`intervalRef`), and
      the dependencies the effect last ran with. */
  datatype Metro = Metro(
    bpm: real, isPlaying: bool, beat: int, hasContext: bool,
    clicks: seq<real>, interval: Option<real>, ranWith: Option<Deps>)

  predicate Wellformed(m: Metro)
  {
    m.bpm > 0.0 && 0 <= m.beat < 4
  }

  /** The first render: stopped at beat 0, no context, nothing armed, the effect not yet run. */
  function Mounted(initialBpm: real): (m: Metro)
  {
    Metro(initialBpm, false, 0, false, [], None, None)
  }

  /** The START/STOP button: `setIsPlaying(!isPlaying)`. */
  function Toggled(m: Metro): (r: Metro)
    ensures r.isPlaying == !m.isPlaying
    ensures r.(isPlaying := m.isPlaying) == m
  {
    m.(isPlaying := !m.isPlaying)
  }

  /** `playClick`: creates the context on first use, plays the click for the beat, steps the beat. */
  function Click(m: Metro): (r: Metro)
    requires Wellformed(m)
    ensures Wellformed(r) && r.hasContext
    ensures r.clicks == m.clicks + [ClickFrequency(m.beat)]
    ensures r.beat == NextBeat(m.beat)
    ensures r.(beat := m.beat, hasContext := m.hasContext, clicks := m.clicks) == m
  {
    m.(clicks := m.clicks + [ClickFrequency(m.beat)], beat := NextBeat(m.beat), hasContext := true)
  }

  /** The effect body after the previous run's cleanup cleared the interval. Playing: click at
      once, then arm an interval of `ClickInterval(bpm)`. Stopped: no interval, beat back to 0. */
  function EffectRun(m: Metro, deps: Deps): (r: Metro)
    requires Wellformed(m)
    ensures Wellformed(r) && r.ranWith == Some(deps)
    ensures r.isPlaying == m.isPlaying && r.bpm == m.bpm
    ensures m.isPlaying ==> r.interval == Some(ClickInterval(m.bpm)) &&
                            r.clicks == m.clicks + [ClickFrequency(m.beat)] && r.beat == NextBeat(m.beat)
    ensures !m.isPlaying ==> r.interval.None? && r.beat == 0 && r.clicks == m.clicks &&
                             r.hasContext == m.hasContext
  {
    if m.isPlaying then Click(m).(interval := Some(ClickInterval(m.bpm)), ranWith := Some(deps))
    else m.(interval := None, beat := 0, ranWith := Some(deps))
  }

  /** A commit runs the effect exactly when the dependencies differ from the last run's. */
  function Commit(m: Metro, deps: Deps): (r: Metro)
    requires Wellformed(m)
    ensures Wellformed(r) && r.ranWith == Some(deps)
    ensures m.ranWith == Some(deps) ==> r == m
    ensures m.ranWith != Some(deps) ==> r == EffectRun(m, deps)
  {
    if m.ranWith == Some(deps) then m else EffectRun(m, deps)
  }

  // ----- As written: the effect depends on `[isPlaying, bpm, playClick]` -----

  function AsWrittenDeps(m: Metro): Deps
  {
    Deps(m.isPlaying, m.bpm, Some(m.beat))
  }

  function AsWrittenCommit(m: Metro): (r: Metro)
    requires Wellformed(m)
    ensures Wellformed(r) && r.isPlaying == m.isPlaying && r.bpm == m.bpm
  {
    Commit(m, AsWrittenDeps(m))
  }

  function AsWrittenCommits(m: Metro, n: nat): (r: Metro)
    requires Wellformed(m)
    ensures Wellformed(r)
    decreases n
  {
    if n == 0 then m else AsWrittenCommits(AsWrittenCommit(m), n - 1)
  }

  /** As written, a playing metronome never settles: each click steps `beat`, which re-creates
      `playClick`, which re-runs the effect on the next commit, which clicks again at once. So
      `n` commits play `n` clicks without the interval ever firing. */
  lemma {:induction false} AsWrittenNeverSettles(m: Metro, n: nat)
    requires Wellformed(m) && m.isPlaying && m.ranWith != Some(AsWrittenDeps(m))
    decreases n
    ensures var r := AsWrittenCommits(m, n);
      && r.clicks == m.clicks + AccentPattern(m.beat, n)
      && r.beat == (m.beat + n) % 4
      && r.ranWith != Some(AsWrittenDeps(r))
  {
    if n > 0 {
      var m' := AsWrittenCommit(m);
      assert m'.clicks == m.clicks + [ClickFrequency(m.beat)] && m'.beat == NextBeat(m.beat);
      assert m'.ranWith == Some(Deps(true, m.bpm, Some(m.beat)));
      AsWrittenNeverSettles(m', n - 1);
      ClicksShift(m.clicks, m.beat, n);
    }
  }

  /** Mount at 120 bpm, press START: four commits and no interval tick already play a full bar. */
  lemma {:induction false} AsWrittenClicksWithoutWaiting()
    ensures var started := Toggled(AsWrittenCommit(Mounted(120.0)));
      AsWrittenCommits(started, 4).clicks == [1000.0, 800.0, 800.0, 800.0]
  {
    var mounted := AsWrittenCommit(Mounted(120.0));
    var started := Toggled(mounted);
    assert mounted.clicks == [] && mounted.beat == 0;
    assert started.ranWith == Some(Deps(false, 120.0, Some(0)));
    AsWrittenNeverSettles(started, 4);
    assert AccentPattern(0, 4) == [1000.0, 800.0, 800.0, 800.0];
  }

  // ----- Corrected: the effect depends on `[isPlaying, bpm]`, the click reads the live beat -----

  function FixedDeps(m: Metro): Deps
  {
    Deps(m.isPlaying, m.bpm, None)
  }

  function FixedCommit(m: Metro): (r: Metro)
    requires Wellformed(m)
    ensures Wellformed(r) && r.isPlaying == m.isPlaying && r.bpm == m.bpm
    ensures r.ranWith == Some(FixedDeps(m))
  {
    Commit(m, FixedDeps(m))
  }

  /** The armed interval fires: one click, nothing re-run. */
  function Tick(m: Metro): (r: Metro)
    requires Wellformed(m) && m.interval.Some?
    ensures Wellformed(r) && r.interval == m.interval
  {
    Click(m)
  }

  function Ticks(m: Metro, n: nat): (r: Metro)
    requires Wellformed(m) && m.interval.Some?
    ensures Wellformed(r) && r.interval == m.interval
    decreases n
  {
    if n == 0 then m else Ticks(Tick(m), n - 1)
  }

  /** A commit with nothing changed does nothing: the corrected effect settles after one run. */
  lemma {:induction false} FixedCommitSettles(m: Metro)
    requires Wellformed(m)
    ensures FixedCommit(FixedCommit(m)) == FixedCommit(m)
  {
  }

  /** The beat a click steps is no longer a dependency, so a tick never re-runs the effect. */
  lemma {:induction false} TickNeedsNoCommit(m: Metro)
    requires Wellformed(m) && m.interval.Some? && m.ranWith == Some(FixedDeps(m))
    ensures FixedCommit(Tick(m)) == Tick(m)
    ensures |Tick(m).clicks| == |m.clicks| + 1
  {
  }

  /** `n` interval ticks play exactly `n` clicks, accented on every fourth beat. */
  lemma {:induction false} TicksFollowTheAccents(m: Metro, n: nat)
    requires Wellformed(m) && m.interval.Some?
    ensures Ticks(m, n).clicks == m.clicks + AccentPattern(m.beat, n)
    ensures Ticks(m, n).beat == (m.beat + n) % 4
    decreases n
  {
    if n > 0 {
      var m' := Tick(m);
      TicksFollowTheAccents(m', n - 1);
      ClicksShift(m.clicks, m.beat, n);
    }
  }

  /** From a settled, playing metronome: STOP clears the interval and resets the beat without a
      click; START then plays the accented click at once and arms the tempo's interval, after
      which `n` ticks continue the bar from beat 1. */
  lemma {:induction false} StopThenStart(m: Metro, n: nat)
    requires Wellformed(m) && m.isPlaying && m.ranWith == Some(FixedDeps(m))
    ensures var stopped := FixedCommit(Toggled(m));
      && stopped.interval.None? && stopped.beat == 0 && stopped.clicks == m.clicks
      && var started := FixedCommit(Toggled(stopped));
         && started.interval == Some(ClickInterval(m.bpm))
         && started.clicks == m.clicks + [1000.0]
         && Ticks(started, n).clicks == m.clicks + AccentPattern(0, n + 1)
  {
    var stopped := FixedCommit(Toggled(m));
    var started := FixedCommit(Toggled(stopped));
    assert started.beat == 1;
    TicksFollowTheAccents(started, n);
    PatternShifts(0, n + 1);
  }

  /** The component as an object: its state variables and refs are fields, each handler and each
      commit updates them as `Toggled`, `FixedCommit` and `Tick` say. */
  class Player {
    var bpm: real
    var isPlaying: bool
    var beat: int
    var hasContext: bool
    var clicks: seq<real>
    var interval: Option<real>
    var ranWith: Option<Deps>

    function State(): Metro
      reads this
    {
      Metro(bpm, isPlaying, beat, hasContext, clicks, interval, ranWith)
    }

    /** The tempo is on the knob's scale, the beat in `[0, 4)`, and an interval is armed exactly
        when the last run of the effect saw a playing metronome, with the period of that run's tempo. */
    ghost predicate Valid()
      reads this
    {
      && MinBpm <= bpm <= MaxBpm && 0 <= beat < 4
      && (interval.Some? ==> ranWith.Some?)
      && (ranWith.Some? ==>
            && MinBpm <= ranWith.value.bpm <= MaxBpm
            && (interval.Some? <==> ranWith.value.isPlaying)
            && (interval.Some? ==> interval.value == ClickInterval(ranWith.value.bpm)))
    }

    constructor (initialBpm: real)
      requires MinBpm <= initialBpm <= MaxBpm
      ensures Valid() && State() == Mounted(initialBpm)
    {
      bpm, isPlaying, beat, hasContext := initialBpm, false, 0, false;
      clicks, interval, ranWith := [], None, None;
    }

    /** The START/STOP button. */
    method TogglePlaying()
      requires Valid()
      modifies this
      ensures Valid() && State() == Toggled(old(State()))
    {
      isPlaying := !isPlaying;
    }

    /** The knob's `onChange`; the knob keeps its value in `[40, 240]`. */
    method SetBpm(v: real)
      requires Valid() && MinBpm <= v <= MaxBpm
      modifies this
      ensures Valid() && State() == old(State()).(bpm := v)
    {
      bpm := v;
    }

    method PlayClick()
      requires Valid()
      modifies this
      ensures Valid() && State() == Click(old(State()))
    {
      hasContext := true;
      clicks := clicks + [ClickFrequency(beat)];
      beat := NextBeat(beat);
    }

    /** The render after a state change: the cleanup and body run only when a dependency moved.
        The cleanup's clear and the body's re-arm are folded into one write of `interval`. */
    method Commit()
      requires Valid()
      modifies this
      ensures Valid() && State() == FixedCommit(old(State()))
      ensures interval.Some? <==> isPlaying
    {
      var deps := FixedDeps(State());
      if ranWith != Some(deps) {
        if isPlaying {
          PlayClick();
          interval := Some(ClickInterval(bpm));
        } else {
          interval, beat := None, 0;
        }
        ranWith := Some(deps);
      }
    }

    /** The armed interval fires. */
    method IntervalFires()
      requires Valid() && interval.Some?
      modifies this
      ensures Valid() && State() == Tick(old(State()))
      ensures 250.0 <= interval.value <= 1500.0
    {
      IntervalInKnobRange(ranWith.value.bpm, ranWith.value.bpm);
      PlayClick();
    }
  }
}
