/** The stage tuner panel: note colour, note and octave slots, the cents indicator and the
    frequency line, all keyed on the tuner being on and the engine connected. */
module StageTuner {
  import opened Numerics
  import opened NoteMapping
  import opened TunerMeter

  /** `getCentsColor()`: muted whenever the tuner is off or the engine disconnected, otherwise the
      cents classification. */
  function CentsColor(isOn: bool, isConnected: bool, cents: int): (t: Tint)
    ensures !(isOn && isConnected) <==> t == Muted
    ensures isOn && isConnected ==> (t == Active <==> -5 <= cents <= 5)
    ensures isOn && isConnected ==> (t == Danger <==> cents > 5)
    ensures isOn && isConnected ==> (t == Warning <==> cents < -5)
  {
    if !isOn || !isConnected then Muted else CentsTint(cents)
  }

  /** The rendered panel: note colour, note text, octave, indicator position and frequency. */
  datatype View = View(color: Tint, noteText: string, octave: Option<int>, indicator: Option<real>, frequency: Option<real>)

  function Render(isOn: bool, isConnected: bool, t: TunerData): (v: View)
  {
    var live := isOn && isConnected;
    View(CentsColor(isOn, isConnected, t.cents),
         if live && t.note != "-" then t.note else "--",
         if live && t.octave > 0 then Some(t.octave) else None,
         if live && t.note != "-" then Some(MarkerPosition(t.cents)) else None,
         if live then Some(t.frequency) else None)
  }

  /** Off or disconnected, the panel shows only placeholders. Live, the note and the indicator
      appear together, exactly when the reading has a note; the indicator stays on the meter; the
      placeholder `-` of a silent reading is never shown as a note. */
  lemma {:induction false} RenderShowsOnlyLiveReadings(isOn: bool, isConnected: bool, t: TunerData)
    ensures var v := Render(isOn, isConnected, t);
      && (!(isOn && isConnected) ==>
            v.color == Muted && v.noteText == "--" && v.octave.None? && v.indicator.None? && v.frequency.None?)
      && (v.indicator.Some? <==> isOn && isConnected && t.note != "-")
      && (v.indicator.Some? ==> v.noteText == t.note && 0.0 <= v.indicator.value <= 100.0)
      && (v.octave.Some? <==> isOn && isConnected && t.octave > 0)
      && v.noteText != "-"
  {
  }

  /** A silent reading (cents 0) on a live tuner colours the placeholder with the in-tune tint. */
  lemma SilentReadingLooksInTune()
    ensures Render(true, true, Silent) == View(Active, "--", None, None, Some(0.0))
  {
  }
}
