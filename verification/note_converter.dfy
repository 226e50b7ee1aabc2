/** The note converter: maps a frequency in Hz to the nearest note of the
    twelve-tone equal-tempered scale (pitch-class name and octave) and to the
    deviation from that note in cents, relative to a configurable A4. */
module NoteConverter {
  import opened Outcomes
  import opened Builtins

  /** The default frequency of A4, in Hz. */
  const StandardA4: real := 440.0
  const SemitonesPerOctave: nat := 12
  /** The MIDI number of A4. */
  const A4Midi: int := 69
  /** The twelve pitch-class names, starting at C. */
  const NoteNames: seq<string> := ["C", "C#", "D", "D#", "E", "F", "F#", "G", "G#", "A", "A#", "B"]

  /** A converter holds only its reference frequency for A4. */
  datatype Converter = Converter(a4Freq: real)

  /** `NoteConverter(a4_freq=440.0)`: the reference is stored as given, with
      no validation. */
  function NewConverter(a4Freq: real := StandardA4): (c: Converter)
    ensures c.a4Freq == a4Freq
  {
    Converter(a4Freq)
  }

  /** The dictionary `get_note_info` returns: the "N/A" dictionary for a
      non-positive frequency, or the four fields of a pitched note. */
  datatype NoteInfo =
    | NotAvailable
    | Pitched(note: string, octave: int, noteFull: string, cents: int)
  {
    function AsDict(): map<string, Value> {
      match this
      case NotAvailable =>
        map["note" := Text("N/A"), "octave" := Number(0), "cents" := Number(0)]
      case Pitched(note, octave, noteFull, cents) =>
        map["note" := Text(note), "octave" := Number(octave),
            "note_full" := Text(noteFull), "cents" := Number(cents)]
    }
  }

  /** The fractional MIDI position of a frequency ratio `f / a4`. */
  function SemitonePosition(t: Transcendentals, ratio: real): (position: real)
    ensures ExactLogarithms(t) && ratio > 0.0 ==>
              t.log2(ratio / t.exp2((position - A4Midi as real) / SemitonesPerOctave as real)) == 0.0
  {
    SemitonesPerOctave as real * t.log2(ratio) + A4Midi as real
  }

  // ---------------------------------------------------------------------------
  // MIDI number -> pitch class, octave, label
  // ---------------------------------------------------------------------------

  /** The pitch class of a MIDI number, 0 = C ... 11 = B; Python's `%` with a
      positive divisor, which never yields a negative index. */
  function PitchClass(midi: int): (index: nat)
    ensures index < |NoteNames|
    ensures (midi - index) % SemitonesPerOctave == 0
  {
    midi % SemitonesPerOctave
  }

  /** The octave of a MIDI number: Python's floor division, minus one, so
      that octave 4 holds MIDI numbers 60 to 71. */
  function Octave(midi: int): (octave: int)
    ensures SemitonesPerOctave * (octave + 1) <= midi < SemitonesPerOctave * (octave + 2)
  {
    midi / SemitonesPerOctave - 1
  }

  function NoteName(midi: int): (name: string)
    ensures name in NoteNames
  {
    NoteNames[PitchClass(midi)]
  }

  /** The MIDI number of the note with pitch class `index` in `octave`: the
      inverse of `PitchClass` and `Octave`. */
  function MidiNumber(index: nat, octave: int): int {
    SemitonesPerOctave * (octave + 1) + index
  }

  /** A MIDI number is recovered from its pitch class and octave, for every
      integer, negative ones included. */
  lemma {:induction false} MidiDecomposition(midi: int)
    ensures MidiNumber(PitchClass(midi), Octave(midi)) == midi
  {
  }

  /** A pitch class and octave are recovered from their MIDI number. */
  lemma {:induction false} MidiComposition(index: nat, octave: int)
    requires index < SemitonesPerOctave
    ensures PitchClass(MidiNumber(index, octave)) == index
    ensures Octave(MidiNumber(index, octave)) == octave
  {
    var midi := MidiNumber(index, octave);
    var o := Octave(midi);
    // Both octave and o satisfy the floor bounds for midi, so they agree.
    assert SemitonesPerOctave * (o + 1) <= midi < SemitonesPerOctave * (o + 2);
    assert SemitonesPerOctave * (octave + 1) <= midi < SemitonesPerOctave * (octave + 2);
    MidiDecomposition(midi);
  }

  /** Distinct MIDI numbers name distinct notes. */
  lemma {:induction false} DistinctMidiDistinctNotes(m1: int, m2: int)
    requires m1 != m2
    ensures PitchClass(m1) != PitchClass(m2) || Octave(m1) != Octave(m2)
  {
    MidiDecomposition(m1);
    MidiDecomposition(m2);
  }

  /** The position of a name in the table, searched from `from` on. */
  function FindName(name: string, from: nat): (r: Option<nat>)
    ensures r.Some? ==> from <= r.value < |NoteNames| && NoteNames[r.value] == name
    decreases |NoteNames| - from
  {
    if from >= |NoteNames| then None
    else if NoteNames[from] == name then Some(from)
    else FindName(name, from + 1)
  }

  /** The pitch class a note name stands for, if it is one of the twelve. */
  function NameIndex(name: string): (r: Option<nat>)
    ensures r.Some? ==> r.value < |NoteNames| && NoteNames[r.value] == name
  {
    FindName(name, 0)
  }

  /** Looking a name up finds it at its own position. */
  lemma {:induction false} NameIndexOfName(index: nat)
    requires index < |NoteNames|
    ensures NameIndex(NoteNames[index]) == Some(index)
  {
    FindNameFrom(index, 0);
  }

  lemma {:induction false} FindNameFrom(index: nat, from: nat)
    requires from <= index < |NoteNames|
    ensures FindName(NoteNames[index], from) == Some(index)
    decreases index - from
  {
    if from < index {
      NamesDistinct(from, index);
      FindNameFrom(index, from + 1);
    }
  }

  /** The twelve names are pairwise different. */
  lemma {:induction false} NamesDistinct(i: nat, j: nat)
    requires i < j < |NoteNames|
    ensures NoteNames[i] != NoteNames[j]
  {
  }

  /** The label `get_note_info` and `freq_to_note` print: the note name
      followed by the octave in decimal. */
  function Label(midi: int): (s: string)
    ensures |NoteName(midi)| < |s| && s[..|NoteName(midi)|] == NoteName(midi)
    ensures ParseInt(s[|NoteName(midi)|..]) == Some(Octave(midi))
  {
    var name := NoteName(midi);
    var digits := IntToString(Octave(midi));
    ParseIntToString(Octave(midi));
    assert (name + digits)[..|name|] == name && (name + digits)[|name|..] == digits;
    name + digits
  }

  /** Reading a label back recovers the pitch class and the octave. */
  lemma {:induction false} LabelRoundTrip(midi: int)
    ensures DecodeLabel(Label(midi)) == Some((PitchClass(midi), Octave(midi)))
  {
    var name := NoteName(midi);
    var digits := IntToString(Octave(midi));
    var s := Label(midi);
    assert s[..|name|] == name && s[|name|..] == digits;
    NameIndexOfName(PitchClass(midi));
    ParseIntToString(Octave(midi));
  }

  /** Splits a label into its note name (one letter, or a letter and `#`) and
      its octave. */
  function DecodeLabel(s: string): Option<(nat, int)> {
    var nameLength := if |s| >= 2 && s[1] == '#' then 2 else 1;
    if |s| < nameLength then None
    else
      match (NameIndex(s[..nameLength]), ParseInt(s[nameLength..]))
      case (Some(index), Some(octave)) => Some((index, octave))
      case _ => None
  }

  /** Different MIDI numbers have different labels. */
  lemma {:induction false} LabelInjective(m1: int, m2: int)
    requires Label(m1) == Label(m2)
    ensures m1 == m2
  {
    LabelRoundTrip(m1);
    LabelRoundTrip(m2);
    MidiDecomposition(m1);
    MidiDecomposition(m2);
  }

  /** The anchors named in the converter's comments: MIDI 69 is A4 and MIDI 60
      is C4. */
  lemma {:induction false} Anchors()
    ensures NoteName(69) == "A" && Octave(69) == 4 && Label(69) == "A4"
    ensures NoteName(60) == "C" && Octave(60) == 4 && Label(60) == "C4"
  {
  }

  // ---------------------------------------------------------------------------
  // _frequency_to_midi and get_note_info
  // ---------------------------------------------------------------------------

  /** `_frequency_to_midi`: 0 for a non-positive frequency, otherwise the
      integer nearest to `12 * log2(f / a4) + 69`. Python raises when the
      reference is zero (division) or negative (logarithm of a negative). */
  function FrequencyToMidi(c: Converter, t: Transcendentals, f: real): (r: Result<int, PyError>)
    ensures f <= 0.0 ==> r == Ok(0)
    ensures r.Err? <==> f > 0.0 && c.a4Freq <= 0.0
    ensures r.Err? ==> (r.error == ZeroDivisionError <==> c.a4Freq == 0.0)
    ensures f > 0.0 && c.a4Freq > 0.0 ==>
              r.Ok? && IsNearestInteger(SemitonePosition(t, f / c.a4Freq), r.value)
  {
    if f <= 0.0 then Ok(0)
    else
      var ratio :- Divide(f, c.a4Freq);
      var l :- Log2(t, ratio);
      Ok(Round(SemitonesPerOctave as real * l + A4Midi as real))
  }

  /** The ideal frequency of a MIDI number, `a4 * 2 ** ((midi - 69) / 12)`. */
  function IdealFrequency(c: Converter, t: Transcendentals, midi: int): (f: real)
    ensures c.a4Freq > 0.0 && Exp2Positive(t) ==> f > 0.0
    ensures c.a4Freq == 0.0 ==> f == 0.0
    ensures ExactLogarithms(t) && c.a4Freq > 0.0 ==>
              t.log2(f / c.a4Freq) == (midi - A4Midi) as real / SemitonesPerOctave as real
  {
    var e := t.exp2((midi - A4Midi) as real / SemitonesPerOctave as real);
    assert Exp2Positive(t) ==> e > 0.0;
    assert c.a4Freq != 0.0 ==> c.a4Freq * e / c.a4Freq == e;
    c.a4Freq * e
  }

  /** The rounded deviation of `f` from the ideal frequency of `midi`, in
      cents: `round(1200 * log2(f / f_ideal))`. */
  function CentsOffset(c: Converter, t: Transcendentals, f: real, midi: int): (r: Result<int, PyError>)
    ensures f > 0.0 && c.a4Freq > 0.0 && Exp2Positive(t) ==> r.Ok?
    ensures r.Ok? ==> && IdealFrequency(c, t, midi) != 0.0
                      && IsNearestInteger(1200.0 * t.log2(f / IdealFrequency(c, t, midi)), r.value)
  {
    var ratio :- Divide(f, IdealFrequency(c, t, midi));
    var l :- Log2(t, ratio);
    Ok(Round((SemitonesPerOctave * 100) as real * l))
  }

  /** `get_note_info`: the "N/A" dictionary for a non-positive frequency;
      otherwise the nearest note, named by pitch class and octave, its label,
      and the cents deviation. */
  function GetNoteInfo(c: Converter, t: Transcendentals, f: real): (r: Result<NoteInfo, PyError>)
    ensures f <= 0.0 ==> r == Ok(NotAvailable)
    ensures f > 0.0 && c.a4Freq <= 0.0 ==> r.Err?
    ensures f > 0.0 && c.a4Freq > 0.0 && Exp2Positive(t) ==> r.Ok? && r.value.Pitched?
    ensures r.Ok? && r.value.Pitched? ==>
              && f > 0.0 && c.a4Freq > 0.0
              && NameIndex(r.value.note).Some?
              && IsNearestInteger(SemitonePosition(t, f / c.a4Freq),
                                  MidiNumber(NameIndex(r.value.note).value, r.value.octave))
              && DecodeLabel(r.value.noteFull) == Some((NameIndex(r.value.note).value, r.value.octave))
  {
    if f <= 0.0 then Ok(NotAvailable)
    else
      var midi :- FrequencyToMidi(c, t, f);
      var index := PitchClass(midi);
      var name := NoteNames[index];
      var octave := Octave(midi);
      var cents :- CentsOffset(c, t, f, midi);
      NameIndexOfName(index);
      MidiDecomposition(midi);
      LabelRoundTrip(midi);
      Ok(Pitched(name, octave, Label(midi), cents))
  }

  /** For a positive frequency and reference, the MIDI number is the rounded
      position `12 * log2(f / a4) + 69`. */
  lemma {:induction false} FrequencyToMidiValue(c: Converter, t: Transcendentals, f: real)
    requires f > 0.0 && c.a4Freq > 0.0
    ensures FrequencyToMidi(c, t, f) == Ok(Round(12.0 * t.log2(f / c.a4Freq) + 69.0))
  {
  }

  /** A pitched result carries the label of the nearest MIDI number. */
  lemma {:induction false} NoteFullIsLabel(c: Converter, t: Transcendentals, f: real)
    requires GetNoteInfo(c, t, f).Ok? && GetNoteInfo(c, t, f).value.Pitched?
    ensures FrequencyToMidi(c, t, f).Ok?
    ensures GetNoteInfo(c, t, f).value.noteFull == Label(FrequencyToMidi(c, t, f).value)
  {
  }

  /** For a non-positive frequency the dictionary is exactly
      `{'note': 'N/A', 'octave': 0, 'cents': 0}`, with no `note_full` key. */
  lemma {:induction false} NonPositiveFrequencyDict(c: Converter, t: Transcendentals, f: real)
    requires f <= 0.0
    ensures GetNoteInfo(c, t, f).Ok?
    ensures GetNoteInfo(c, t, f).value.AsDict()
            == map["note" := Text("N/A"), "octave" := Number(0), "cents" := Number(0)]
    ensures "note_full" !in GetNoteInfo(c, t, f).value.AsDict()
  {
  }

  /** With the exact logarithm, the cents deviation from the nearest note lies
      within half a semitone: between -50 and +50 inclusive. */
  lemma {:induction false} CentsWithinHalfSemitone(c: Converter, t: Transcendentals, f: real)
    requires ExactLogarithms(t)
    requires f > 0.0 && c.a4Freq > 0.0
    ensures GetNoteInfo(c, t, f).Ok? && GetNoteInfo(c, t, f).value.Pitched?
    ensures -50 <= GetNoteInfo(c, t, f).value.cents <= 50
  {
    var midi := FrequencyToMidi(c, t, f).value;
    var ratio := f / c.a4Freq;
    var y := (midi - A4Midi) as real / SemitonesPerOctave as real;
    var e := t.exp2(y);
    assert f / IdealFrequency(c, t, midi) == ratio / e;
    assert t.log2(ratio / e) == t.log2(ratio) - y;
    var x := SemitonePosition(t, ratio);
    // 1200 * (log2(ratio) - y) == 100 * (x - midi), and |x - midi| <= 1/2.
    assert 1200.0 * (t.log2(ratio) - y) == 100.0 * (x - midi as real);
    var cents := CentsOffset(c, t, f, midi).value;
    assert -50.5 < cents as real < 50.5;
  }

  /** At the ideal frequency of a MIDI number, the nearest MIDI number is
      that number. */
  lemma {:induction false} MidiAtIdealFrequency(c: Converter, t: Transcendentals, midi: int)
    requires ExactLogarithms(t)
    requires c.a4Freq > 0.0
    ensures FrequencyToMidi(c, t, IdealFrequency(c, t, midi)) == Ok(midi)
  {
    var y := (midi - A4Midi) as real / SemitonesPerOctave as real;
    var e := t.exp2(y);
    var f := IdealFrequency(c, t, midi);
    assert f > 0.0;
    assert f / c.a4Freq == e;
    assert t.log2(e) == y;
    assert SemitonesPerOctave as real * y + A4Midi as real == midi as real;
    RoundOfInteger(midi);
  }

  /** At the ideal frequency of a MIDI number, the deviation from that number
      is zero cents. */
  lemma {:induction false} CentsAtIdealFrequency(c: Converter, t: Transcendentals, midi: int)
    requires ExactLogarithms(t)
    requires c.a4Freq > 0.0
    ensures CentsOffset(c, t, IdealFrequency(c, t, midi), midi) == Ok(0)
  {
    var f := IdealFrequency(c, t, midi);
    assert f > 0.0;
    assert f / f == 1.0;
    var one := t.exp2(0.0);
    assert t.log2(one) == 0.0;
    assert t.log2(one / one) == t.log2(one) - 0.0;
    assert one / one == 1.0;
    RoundOfInteger(0);
  }

  /** At the ideal frequency of a MIDI number, the converter names exactly
      that note and reports a deviation of zero cents. */
  lemma {:induction false} IdealFrequencyRoundTrip(c: Converter, t: Transcendentals, midi: int)
    requires ExactLogarithms(t)
    requires c.a4Freq > 0.0
    ensures GetNoteInfo(c, t, IdealFrequency(c, t, midi))
            == Ok(Pitched(NoteName(midi), Octave(midi), Label(midi), 0))
  {
    assert IdealFrequency(c, t, midi) > 0.0;
    MidiAtIdealFrequency(c, t, midi);
    CentsAtIdealFrequency(c, t, midi);
  }

  /** With the exact logarithm both ends of the cents range are reached.
      A position exactly half-way between two notes rounds to the even MIDI
      number: 69.5 (`y = 1/24`) goes up to A#4 at -50 cents, and 70.5
      (`y = 3/24`) goes down to A#4 at +50 cents. */
  lemma {:induction false} CentsRangeIsTight(c: Converter, t: Transcendentals, y: real, cents: int)
    requires ExactLogarithms(t)
    requires c.a4Freq > 0.0
    requires (y, cents) == (1.0 / 24.0, -50) || (y, cents) == (3.0 / 24.0, 50)
    ensures GetNoteInfo(c, t, c.a4Freq * t.exp2(y)) == Ok(Pitched("A#", 4, "A#4", cents))
  {
    TieMidi(c, t, y);
    TieCents(c, t, y, cents);
    assert Label(70) == "A#4";
  }

  /** The positions 69.5 and 70.5 both round to the even MIDI number 70. */
  lemma {:induction false} TieMidi(c: Converter, t: Transcendentals, y: real)
    requires ExactLogarithms(t)
    requires c.a4Freq > 0.0
    requires y == 1.0 / 24.0 || y == 3.0 / 24.0
    ensures FrequencyToMidi(c, t, c.a4Freq * t.exp2(y)) == Ok(70)
  {
    var f := c.a4Freq * t.exp2(y);
    assert f > 0.0;
    assert f / c.a4Freq == t.exp2(y);
    assert t.log2(t.exp2(y)) == y;
    RoundUnique(12.0 * y + 69.0, 70);
    FrequencyToMidiValue(c, t, f);
  }

  /** Against MIDI 70, the two half-way frequencies lie -50 and +50 cents off. */
  lemma {:induction false} TieCents(c: Converter, t: Transcendentals, y: real, cents: int)
    requires ExactLogarithms(t)
    requires c.a4Freq > 0.0
    requires (y, cents) == (1.0 / 24.0, -50) || (y, cents) == (3.0 / 24.0, 50)
    ensures CentsOffset(c, t, c.a4Freq * t.exp2(y), 70) == Ok(cents)
  {
    var f := c.a4Freq * t.exp2(y);
    var e := t.exp2((70 - A4Midi) as real / SemitonesPerOctave as real);
    assert f / IdealFrequency(c, t, 70) == t.exp2(y) / e;
    assert t.log2(t.exp2(y) / e) == y - 1.0 / 12.0;
    RoundOfInteger(cents);
  }
}
