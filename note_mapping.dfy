/** Frequency to note-name mapping in twelve-tone equal temperament (A4 = 440 Hz),
    and the tuner snapshot record shared by the pitch detector, the engine and the tuner views. */
module NoteMapping {
  import opened Numerics

  /** One tuner reading: frequency in Hz, pitch-class name, signed cents, octave, confidence. */
  datatype TunerData = TunerData(frequency: real, note: string, cents: int, octave: int, clarity: real)

  /** The "no pitch" reading `{0, '-', 0, 0, 0}`. */
  const Silent: TunerData := TunerData(0.0, "-", 0, 0, 0.0)

  const NoteNames: seq<string> := ["C", "C#", "D", "D#", "E", "F", "F#", "G", "G#", "A", "A#", "B"]

  const A4Frequency: real := 440.0

  /** Pitch-class index `((midi % 12) + 12) % 12`, written with JavaScript's truncating `%`. */
  function NoteIndex(midi: int): (k: int)
    ensures 0 <= k < 12
    ensures k == midi % 12
  {
    JsRem(JsRem(midi, 12) + 12, 12)
  }

  /** Scientific-pitch octave `Math.floor(midi / 12) - 1`. */
  function Octave(midi: int): (o: int)
    ensures o == midi / 12 - 1
  {
    (midi as real / 12.0).Floor - 1
  }

  /** `12 * log2(f / 440)`: the (unrounded) semitone distance from A4. */
  function Semitones(log2: real -> real, frequency: real): real
  {
    12.0 * log2(frequency / A4Frequency)
  }

  /** MIDI note number of the nearest equal-tempered note. */
  function MidiNote(log2: real -> real, frequency: real): int
  {
    69 + Round(Semitones(log2, frequency))
  }

  /** Cents between the frequency and its nearest note, `round((s - round(s)) * 100)`. */
  function Cents(s: real): (c: int)
    ensures -50 <= c <= 50
    ensures -0.5 <= (s - Round(s) as real) * 100.0 - c as real < 0.5
  {
    Round((s - Round(s) as real) * 100.0)
  }

  /** `frequencyToNote`: the silent reading outside [20, 5000] Hz, otherwise the nearest note. */
  function FrequencyToNote(log2: real -> real, frequency: real): (r: TunerData)
    ensures (frequency < 20.0 || frequency > 5000.0) <==> r == Silent
    ensures r != Silent ==>
              && r.frequency == frequency
              && r.clarity == 1.0
              && r.note in NoteNames
              && r.note == NoteNames[MidiNote(log2, frequency) % 12]
              && r.octave == MidiNote(log2, frequency) / 12 - 1
              && -50 <= r.cents <= 50
  {
    if frequency < 20.0 || frequency > 5000.0 then Silent
    else
      var s := Semitones(log2, frequency);
      var midi := 69 + Round(s);
      TunerData(frequency, NoteNames[NoteIndex(midi)], Cents(s), Octave(midi), 1.0)
  }

  /** The note index and octave together recover the MIDI number: `midi == 12 * (octave + 1) + index`. */
  lemma {:induction false} MidiDecomposition(midi: int)
    ensures 12 * (Octave(midi) + 1) + NoteIndex(midi) == midi
  {
  }

  /** Conversely every (index, octave) pair names exactly one MIDI note, so negative MIDI numbers
      are normalised into [0, 12) correctly. */
  lemma {:induction false} MidiFromNoteAndOctave(k: int, o: int)
    requires 0 <= k < 12
    ensures NoteIndex(12 * (o + 1) + k) == k
    ensures Octave(12 * (o + 1) + k) == o
  {
    var m := 12 * (o + 1) + k;
    assert m % 12 == k && m / 12 == o + 1;
  }

  /** A frequency exactly on an equal-tempered note `n` semitones from A4 reads 0 cents. */
  lemma {:induction false} ExactNoteHasZeroCents(log2: real -> real, frequency: real, n: int)
    requires 20.0 <= frequency <= 5000.0
    requires Semitones(log2, frequency) == n as real
    ensures FrequencyToNote(log2, frequency).cents == 0
    ensures FrequencyToNote(log2, frequency).note == NoteNames[(69 + n) % 12]
    ensures FrequencyToNote(log2, frequency).octave == (69 + n) / 12 - 1
  {
    assert Round(n as real) == n;
    assert Round(0.0) == 0;
  }

  /** MIDI 69 is A4 and MIDI 60 is middle C (C4). */
  lemma ReferenceNotes()
    ensures NoteNames[NoteIndex(69)] == "A" && Octave(69) == 4
    ensures NoteNames[NoteIndex(60)] == "C" && Octave(60) == 4
    ensures NoteNames[NoteIndex(-1)] == "B" && Octave(-1) == -2
  {
  }
}
