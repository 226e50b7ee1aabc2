/** The stand-alone WAV scanner: its own note naming with A4 fixed at 440 Hz,
    and the analysis of one block of samples (transform, magnitudes of the
    first half of the spectrum, peak, frequency, note). */
module Scanner {
  import opened Outcomes
  import opened Builtins
  import opened NoteConverter
  import Fft
  import FftAnalyzer

  /** The reference frequency the scanner hard-codes for A4. */
  const ScannerA4: real := 440.0

  /** `NOTES`: the scanner's own table of the twelve pitch-class names. */
  const Notes: seq<string> := ["C", "C#", "D", "D#", "E", "F", "F#", "G", "G#", "A", "A#", "B"]

  /** The scanner's table spells the names exactly as the converter's does. */
  lemma SameNoteTable()
    ensures Notes == NoteNames
  {
  }

  /** `NOTES[n % 12] + str(n // 12 - 1)`: the scanner's own spelling of the
      label, which is the converter's label for the same MIDI number. */
  function ScannerLabel(n: int): (s: string)
    ensures s == Label(n)
  {
    SameNoteTable();
    Notes[n % 12] + IntToString(n / 12 - 1)
  }

  /** `freq_to_note(freq)`: `None` for a non-positive frequency; otherwise
      the label (name and octave) of the note nearest to `freq`, with the
      names of the scanner's own table, which matches the converter's. */
  function FreqToNote(t: Transcendentals, freq: real): (r: Option<string>)
    ensures r.None? <==> freq <= 0.0
    ensures r.Some? ==>
              && DecodeLabel(r.value).Some?
              && IsNearestInteger(SemitonePosition(t, freq / ScannerA4),
                                  MidiNumber(DecodeLabel(r.value).value.0, DecodeLabel(r.value).value.1))
  {
    if freq <= 0.0 then None
    else
      var n := Round(12.0 * t.log2(freq / ScannerA4) + 69.0);
      MidiDecomposition(n);
      LabelRoundTrip(n);
      Some(ScannerLabel(n))
  }

  /** For a positive frequency the scanner prints the label of the rounded
      position `12 * log2(freq / 440) + 69`. */
  lemma {:induction false} FreqToNoteValue(t: Transcendentals, freq: real)
    requires freq > 0.0
    ensures FreqToNote(t, freq) == Some(Label(Round(12.0 * t.log2(freq / ScannerA4) + 69.0)))
  {
    var n := Round(12.0 * t.log2(freq / ScannerA4) + 69.0);
    assert FreqToNote(t, freq) == Some(ScannerLabel(n));
  }

  /** The scanner and the converter with its default reference agree: for a
      positive frequency the scanner prints the label of the converter's MIDI
      number, which is also the converter's `note_full` (`NoteFullIsLabel`). */
  lemma {:induction false} FreqToNoteAgreesWithConverter(t: Transcendentals, freq: real)
    requires freq > 0.0
    ensures FrequencyToMidi(NewConverter(), t, freq).Ok?
    ensures FreqToNote(t, freq) == Some(Label(FrequencyToMidi(NewConverter(), t, freq).value))
  {
    FreqToNoteValue(t, freq);
    SameMidi(t, freq);
  }

  /** The default converter rounds the same position the scanner rounds. */
  lemma {:induction false} SameMidi(t: Transcendentals, freq: real)
    requires freq > 0.0
    ensures FrequencyToMidi(NewConverter(), t, freq) == Ok(Round(12.0 * t.log2(freq / ScannerA4) + 69.0))
  {
    FrequencyToMidiValue(NewConverter(), t, freq);
  }

  // ---------------------------------------------------------------------------
  // analyze_wav, from the transform to the note
  // ---------------------------------------------------------------------------

  /** The samples unpacked from the file, as complex numbers. */
  function Lift(samples: seq<int>): (signal: seq<Fft.Complex>)
    ensures |signal| == |samples|
    ensures forall i | 0 <= i < |samples| ::
              signal[i].re == samples[i] as real && signal[i].im == 0.0
  {
    seq(|samples|, i requires 0 <= i < |samples| => Fft.Complex(samples[i] as real, 0.0))
  }

  /** `[abs(x) for x in spectrum[:len(spectrum)//2]]`, with the modulus held
      abstract. */
  function HalfMagnitudes(modulus: Fft.Complex -> real, spectrum: seq<Fft.Complex>): (m: seq<real>)
    ensures |m| == |spectrum| / 2
  {
    seq(|spectrum| / 2, i requires 0 <= i < |spectrum| / 2 => modulus(spectrum[i]))
  }

  /** `magnitudes.index(max(magnitudes))`: the maximum is found first, then
      the first position that holds it. This is the same index `np.argmax`
      picks. */
  method PeakIndex(magnitudes: seq<real>) returns (peak: nat)
    requires |magnitudes| > 0
    ensures FftAnalyzer.IsFirstArgMax(magnitudes, 0, peak)
    ensures peak == FftAnalyzer.ArgMax(magnitudes)
  {
    var m := magnitudes[0];
    var i := 1;
    while i < |magnitudes|
      invariant 1 <= i <= |magnitudes|
      invariant m in magnitudes[..i]
      invariant forall j | 0 <= j < i :: magnitudes[j] <= m
    {
      if magnitudes[i] > m {
        m := magnitudes[i];
      }
      i := i + 1;
    }
    assert magnitudes[..i] == magnitudes;
    peak := 0;
    while magnitudes[peak] != m
      invariant peak < |magnitudes|
      invariant m in magnitudes[peak..]
      invariant forall j | 0 <= j < peak :: magnitudes[j] != m
      decreases |magnitudes| - peak
    {
      assert magnitudes[peak..] == [magnitudes[peak]] + magnitudes[peak + 1..];
      peak := peak + 1;
    }
    FftAnalyzer.FirstArgMaxUnique(magnitudes, 0, peak, FftAnalyzer.ArgMax(magnitudes));
  }

  /** Lines 63 to 68 of `analyze_wav`: transform the block, take the
      magnitudes of the first half of the spectrum, locate their first
      maximum (bin 0 included), convert it to Hz with
      `peak * framerate / len(signal)`, and name the note. The frequency lies
      in `[0, framerate / 2)` for a positive rate. */
  method AnalyzeSamples(tw: Fft.Twiddle, modulus: Fft.Complex -> real, t: Transcendentals,
                        samples: seq<int>, framerate: int)
    returns (freq: real, note: Option<string>)
    requires |samples| >= 2 && Fft.IsPowerOfTwo(|samples|)
    ensures var magnitudes := HalfMagnitudes(modulus, Fft.Transform(tw, Lift(samples)));
            freq == PeakFrequency(FftAnalyzer.ArgMax(magnitudes), framerate, |samples|)
    ensures framerate > 0 ==> 0.0 <= freq < framerate as real / 2.0
    ensures framerate == 0 ==> freq == 0.0
    ensures note.Some? <==> freq > 0.0
    ensures note == FreqToNote(t, freq)
  {
    var spectrum := Fft.Transform(tw, Lift(samples));
    var magnitudes := HalfMagnitudes(modulus, spectrum);
    var peak := PeakIndex(magnitudes);
    freq := PeakFrequency(peak, framerate, |samples|);
    note := FreqToNote(t, freq);
  }

  /** `peak * framerate / len(signal)`: a bin below `n / 2` lies below half
      the rate. */
  function PeakFrequency(peak: nat, framerate: int, n: nat): (freq: real)
    requires peak < n / 2
    ensures freq * n as real == (peak * framerate) as real
    ensures framerate > 0 ==> 0.0 <= freq < framerate as real / 2.0
    ensures framerate == 0 ==> freq == 0.0
  {
    FrequencyBound(peak, framerate, n);
    (peak * framerate) as real / n as real
  }

  lemma {:induction false} FrequencyBound(peak: nat, framerate: int, n: nat)
    requires peak < n / 2
    ensures var freq := (peak * framerate) as real / n as real;
            && freq * n as real == (peak * framerate) as real
            && (framerate > 0 ==> 0.0 <= freq < framerate as real / 2.0)
            && (framerate == 0 ==> freq == 0.0)
  {
    if framerate > 0 {
      var product := peak * framerate;
      assert product < (n / 2) * framerate;
      assert 2 * (n / 2) <= n;
      assert 2 * product < n * framerate;
      assert product as real * 2.0 < n as real * framerate as real;
    }
  }
}
