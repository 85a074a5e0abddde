/** The tuner pedal on the board: note, octave, cents indicator and frequency line, keyed on the
    pedal alone (it is not told whether the engine is connected). */
module TunerPedal {
  import opened Numerics
  import opened NoteMapping
  import opened TunerMeter

  /** `getCentsColor()`: green in tune, red sharp, amber flat; it does not look at `isOn`. */
  function CentsColor(cents: int): (t: Tint)
    ensures t != Muted
    ensures t == Active <==> -5 <= cents <= 5
  {
    CentsTint(cents)
  }

  /** `getCentsIndicator()`: linear in cents, clamped to the meter. */
  function CentsIndicator(cents: int): (p: real)
    ensures 0.0 <= p <= 100.0
    ensures -50 <= cents <= 50 ==> p == (cents + 50) as real
  {
    MarkerPosition(cents)
  }

  /** The rendered pedal face: the note colour (dim when off), note text, octave, indicator and
      frequency line. */
  datatype View = View(color: Tint, noteText: string, octave: Option<int>, indicator: Option<real>, frequency: Option<real>)

  function Render(isOn: bool, t: TunerData): (v: View)
  {
    View(if isOn then CentsColor(t.cents) else Muted,
         if isOn then t.note else "-",
         if isOn && t.octave > 0 then Some(t.octave) else None,
         if isOn then Some(CentsIndicator(t.cents)) else None,
         if isOn && t.frequency > 0.0 then Some(t.frequency) else None)
  }

  /** Off, the pedal shows `-` and nothing else; on, it shows the reading's own note (the `-` of a
      silent reading included), the indicator always, the octave when positive and the frequency
      when positive. */
  lemma {:induction false} RenderFollowsThePedal(isOn: bool, t: TunerData)
    ensures var v := Render(isOn, t);
      && (!isOn ==> v == View(Muted, "-", None, None, None))
      && (isOn ==> v.noteText == t.note && v.indicator.Some? && 0.0 <= v.indicator.value <= 100.0
                   && v.color != Muted)
      && (v.octave.Some? <==> isOn && t.octave > 0)
      && (v.frequency.Some? <==> isOn && t.frequency > 0.0)
  {
  }

  /** On and silent, the pedal shows `-`, the in-tune colour, the indicator centred and no
      frequency. */
  lemma SilentReadingCentred()
    ensures Render(true, Silent) == View(Active, "-", None, Some(50.0), None)
  {
  }
}
