/** The header's compact tuner: nearest open string of standard tuning, the tighten/loosen hint,
    and what the note, octave, marker and frequency slots show. */
module HeaderTuner {
  import opened Numerics
  import opened NoteMapping
  import opened TunerMeter

  datatype GuitarString = GuitarString(id: string, freq: real, pt: string)

  /** Standard tuning, low to high, with the Portuguese solfège names. */
  const StandardStrings: seq<GuitarString> := [
    GuitarString("E2", 82.41, "MI"),
    GuitarString("A2", 110.0, "LÁ"),
    GuitarString("D3", 146.83, "RÉ"),
    GuitarString("G3", 196.0, "SOL"),
    GuitarString("B3", 246.94, "SI"),
    GuitarString("E4", 329.63, "MI")
  ]

  /** The table is strictly ascending in pitch, so every target is positive and no two coincide. */
  lemma {:induction false} StringsAscend()
    ensures |StandardStrings| == 6
    ensures forall i, j :: 0 <= i < j < 6 ==> 0.0 < StandardStrings[i].freq < StandardStrings[j].freq
  {
    var f := [82.41, 110.0, 146.83, 196.0, 246.94, 329.63];
    assert forall i :: 0 <= i < 6 ==> StandardStrings[i].freq == f[i];
    assert forall i :: 0 <= i < 5 ==> 0.0 < f[i] < f[i + 1];
    AscendingStepsAscend(f);
  }

  lemma {:induction false} AscendingStepsAscend(f: seq<real>)
    requires |f| > 0 && f[0] > 0.0
    requires forall i :: 0 <= i < |f| - 1 ==> f[i] < f[i + 1]
    ensures forall i, j :: 0 <= i < j < |f| ==> 0.0 < f[i] < f[j]
  {
    if |f| > 1 {
      var g := f[..|f| - 1];
      AscendingStepsAscend(g);
      forall i, j | 0 <= i < j < |f|
        ensures 0.0 < f[i] < f[j]
      {
        assert g[i] == f[i];
        if j < |f| - 1 {
          assert g[j] == f[j];
        } else if i < |f| - 2 {
          assert g[|f| - 2] == f[|f| - 2];
        }
      }
    }
  }

  /** `1200 * log2(freq / target)`. */
  function CentsDiff(log2: real -> real, freq: real, target: real): (cents: real)
    requires target > 0.0
    ensures freq > 0.0 && (forall x :: x > 0.0 ==> (log2(x) == 0.0 <==> x == 1.0)) ==>
              (cents == 0.0 <==> freq == target)
  {
    QuotientIsOne(freq, target);
    1200.0 * log2(freq / target)
  }

  /** The deviation from each of the six strings, in table order. */
  function Deltas(log2: real -> real, freq: real): (ds: seq<real>)
    ensures |ds| == 6
    ensures forall i :: 0 <= i < 6 ==>
              StandardStrings[i].freq > 0.0 && ds[i] == CentsDiff(log2, freq, StandardStrings[i].freq)
  {
    StringsAscend();
    seq(6, i requires 0 <= i < 6 => CentsDiff(log2, freq, StandardStrings[i].freq))
  }

  /** The index the scan of the first `n` deviations keeps: it replaces the best only on a strictly
      smaller magnitude. The result is a minimiser, and every earlier entry is strictly worse, so
      ties go to the earliest string. */
  function BestOf(ds: seq<real>, n: nat): (b: nat)
    requires 0 < n <= |ds|
    ensures b < n
    ensures forall j :: 0 <= j < n ==> Abs(ds[b]) <= Abs(ds[j])
    ensures forall j :: 0 <= j < b ==> Abs(ds[j]) > Abs(ds[b])
  {
    if n == 1 then 0
    else
      var b := BestOf(ds, n - 1);
      if Abs(ds[n - 1]) < Abs(ds[b]) then n - 1 else b
  }

  /** The index of the string `getClosestString` returns. */
  function ClosestIndex(log2: real -> real, freq: real): (i: nat)
    ensures i < 6
  {
    BestOf(Deltas(log2, freq), 6)
  }

  /** `getClosestString(freq)`: the loop with `bestAbs = Infinity` that keeps the first string of
      least `|centsDiff|`, and its signed deviation. */
  method GetClosestString(log2: real -> real, freq: real) returns (best: GuitarString, bestDelta: real)
    ensures best == StandardStrings[ClosestIndex(log2, freq)]
    ensures bestDelta == Deltas(log2, freq)[ClosestIndex(log2, freq)]
    ensures forall s :: s in StandardStrings ==> Abs(bestDelta) <= Abs(CentsDiff(log2, freq, s.freq))
  {
    ghost var ds := Deltas(log2, freq);
    best := StandardStrings[0];
    var bestAbs: Option<real> := None;
    bestDelta := 0.0;
    ghost var b := 0;
    for k := 0 to 6
      invariant k == 0 ==> bestAbs.None?
      invariant k > 0 ==> b == BestOf(ds, k) && bestAbs == Some(Abs(ds[b])) &&
                           best == StandardStrings[b] && bestDelta == ds[b]
    {
      var d := CentsDiff(log2, freq, StandardStrings[k].freq);
      var abs := Abs(d);
      if bestAbs.None? || abs < bestAbs.value {
        bestAbs := Some(abs);
        best := StandardStrings[k];
        bestDelta := d;
        b := k;
      }
    }
    forall s | s in StandardStrings
      ensures Abs(bestDelta) <= Abs(CentsDiff(log2, freq, s.freq))
    {
      var j :| 0 <= j < 6 && StandardStrings[j] == s;
      assert ds[j] == CentsDiff(log2, freq, s.freq);
    }
  }

  /** Playing a string exactly on pitch selects that string with a zero deviation, provided
      `log2` vanishes exactly at 1. */
  lemma {:induction false} ExactPitchPicksItsString(log2: real -> real, i: nat)
    requires i < 6
    requires forall x :: x > 0.0 ==> (log2(x) == 0.0 <==> x == 1.0)
    ensures ClosestIndex(log2, StandardStrings[i].freq) == i
    ensures Deltas(log2, StandardStrings[i].freq)[i] == 0.0
  {
    StringsAscend();
    var f := StandardStrings[i].freq;
    var ds := Deltas(log2, f);
    assert f / f == 1.0;
    assert ds[i] == 0.0;
    forall j | 0 <= j < 6 && j != i
      ensures Abs(ds[j]) > 0.0
    {
      var t := StandardStrings[j].freq;
      assert f != t;
      assert f / t != 1.0;
    }
  }

  /** `'none' | 'ok' | 'tighten' | 'loosen'`. */
  datatype Direction = NoDirection | Ok | Tighten | Loosen

  /** The hint for the closest string's deviation, `none` when there is no closest string. */
  function DirectionOf(closest: Option<real>): (d: Direction)
    ensures closest.None? <==> d == NoDirection
    ensures closest.Some? ==>
              && (d == Ok <==> Abs(closest.value) <= 5.0)
              && (d == Tighten <==> closest.value < -5.0)
              && (d == Loosen <==> closest.value > 5.0)
  {
    match closest
    case None => NoDirection
    case Some(delta) =>
      if Abs(delta) <= 5.0 then Ok
      else if delta < 0.0 then Tighten
      else Loosen
  }

  /** What the header tuner renders: the pitch flag, the closest string and its deviation, the
      hint, the status colour, the note text and its colour, the octave suffix, the marker and the
      frequency text. */
  datatype View = View(
    hasPitch: bool, closest: Option<(GuitarString, real)>, direction: Direction, status: Tint,
    noteText: string, noteTint: Tint, octave: Option<int>, marker: Option<real>, frequency: Option<real>)

  /** `isOn && isConnected` and a reading with a frequency, a note and clarity above 0.15. */
  predicate HasPitch(isOn: bool, isConnected: bool, t: TunerData)
  {
    isOn && isConnected && t.frequency > 0.0 && t.note != "-" && t.clarity > 0.15
  }

  function Render(log2: real -> real, isOn: bool, isConnected: bool, t: TunerData): (v: View)
  {
    var hasPitch := HasPitch(isOn, isConnected, t);
    var closest: Option<(GuitarString, real)> :=
      if hasPitch then
        var i := ClosestIndex(log2, t.frequency);
        Some((StandardStrings[i], Deltas(log2, t.frequency)[i]))
      else None;
    var direction := DirectionOf(if closest.Some? then Some(closest.value.1) else None);
    var status := if !(isOn && isConnected) then Muted else if direction == Ok then Active else Danger;
    View(hasPitch, closest, direction, status,
         if hasPitch then t.note else "--",
         if hasPitch then status else Muted,
         if hasPitch && t.octave > 0 then Some(t.octave) else None,
         if hasPitch then Some(MarkerPosition(t.cents)) else None,
         if hasPitch then Some(t.frequency) else None)
  }

  /** Without a pitch nothing is chosen and only placeholders show; with one, the closest string
      is the table's least-deviation string, the hint follows the ±5 cent window, the note shows
      in the in-tune colour exactly when the hint is `ok`, and the marker stays on the meter. */
  lemma {:induction false} RenderShowsTheClosestString(log2: real -> real, isOn: bool, isConnected: bool, t: TunerData)
    ensures var v := Render(log2, isOn, isConnected, t);
      && (v.hasPitch <==> isOn && isConnected && t.frequency > 0.0 && t.note != "-" && t.clarity > 0.15)
      && (!v.hasPitch ==> v.closest.None? && v.direction == NoDirection && v.noteText == "--" &&
                          v.noteTint == Muted && v.octave.None? && v.marker.None? && v.frequency.None?)
      && (v.hasPitch ==>
            && v.closest.Some? && v.closest.value.0 in StandardStrings
            && (forall s :: s in StandardStrings ==>
                  Abs(v.closest.value.1) <= Abs(CentsDiff(log2, t.frequency, s.freq)))
            && v.noteText == t.note
            && (v.noteTint == Active <==> Abs(v.closest.value.1) <= 5.0)
            && (v.noteTint == Danger <==> Abs(v.closest.value.1) > 5.0)
            && (v.octave.Some? <==> t.octave > 0)
            && v.marker.Some? && 0.0 <= v.marker.value <= 100.0)
      && (!(isOn && isConnected) ==> v.status == Muted)
  {
    var v := Render(log2, isOn, isConnected, t);
    if v.hasPitch {
      var ds := Deltas(log2, t.frequency);
      var i := ClosestIndex(log2, t.frequency);
      forall s | s in StandardStrings
        ensures Abs(ds[i]) <= Abs(CentsDiff(log2, t.frequency, s.freq))
      {
        var j :| 0 <= j < 6 && StandardStrings[j] == s;
        assert ds[j] == CentsDiff(log2, t.frequency, s.freq);
      }
    }
  }
}
