# A Dafny model of the Afinador tuner core

This project models the core of the guitar tuner **Afinador_IFTS_11** in Dafny.
It covers three parts:

- the note converter (`NoteConverter`), which maps a frequency to the nearest
  note of the equal-tempered scale (pitch-class name, octave, label) and to
  its deviation in cents from a configurable A4;
- the spectrum analyzer (`FFTAnalyzer`), which picks the fundamental from a
  magnitude spectrum, skips the two lowest bins, and reports anything below
  50 Hz as silence before handing the rest to the converter;
- the stand-alone WAV scanner of `main.py`: its recursive radix-2 FFT, its
  own `freq_to_note`, and the lines of `analyze_wav` that turn a spectrum
  into a frequency and a note.

The modules follow that structure:

| module | file | models |
|---|---|---|
| `Outcomes` | `outcomes.dfy` | `Option` and `Result`, used for Python's `None` and raised exceptions |
| `Builtins` | `builtins.dfy` | `round` (exact, ties to even), `str` of an integer and its inverse, true division and `math.log2` with the exceptions they raise, and the abstract transcendentals |
| `NoteConverter` | `note_converter.dfy` | `Analisis/NoteConverter.py` |
| `FftAnalyzer` | `fft_analyzer.dfy` | `Analisis/FFT_Analyzer.py` |
| `Fft` | `fft.dfy` | `fft` in `main.py` |
| `Scanner` | `scanner.dfy` | `NOTES`, `freq_to_note` and lines 63-68 of `analyze_wav` in `main.py` |

The model makes these choices:

- **Numbers.** Frequencies are exact reals and MIDI numbers are unbounded
  integers, like Python's `int`. Dafny's `/` and `%` with the positive
  divisor 12 agree with Python's `//` and `%` for negative MIDI numbers too.
- **Rounding.** `round` is modelled exactly: the nearest integer, with a tie
  going to the even neighbour.
- **Transcendentals.** `math.log2` and `2 **` are the two function fields of a
  `Transcendentals` value passed as a parameter. A property that needs `2 **`
  to be positive says so with the hypothesis `Exp2Positive`; a property that
  needs the laws of the real logarithm says so with the hypothesis
  `ExactLogarithms`.
- **Exceptions.** Python raises in three places here:
  - a reference frequency of 0 gives `ZeroDivisionError`;
  - a negative reference gives the `math.log2` domain error;
  - an ideal frequency of 0 gives `ZeroDivisionError`.

  Each of these is an `Err` result, not a precondition.
- **Dictionaries.** The dictionaries the converter and the analyzer return
  are datatypes (`NoteInfo`, `TuningInfo`). An `AsDict` function gives back
  a dictionary with the same keys and values as the Python one.
- **Complex numbers and the FFT.** Complex numbers are pairs of reals. The
  twiddle factor `exp(-2πik/N)` and the modulus `abs` are function
  parameters. So what is proved about `fft` is what holds for every choice of
  twiddles: the base case, length preservation, the butterfly layout,
  additivity, and the transforms of the zero signal and the unit impulse.

## Model

| member | source | states |
|---|---|---|
| `Builtins.Round` | Analisis/NoteConverter.py:33 | `round(x)` is an integer within one half of `x`, and on an exact tie it is the even one |
| `Builtins.RoundUnique` | Analisis/NoteConverter.py:33 | those two properties single out `round(x)`: any integer that has them is `round(x)` |
| `Builtins.RoundOfInteger` | Analisis/NoteConverter.py:64 | an integral value rounds to itself |
| `Builtins.Divide` | Analisis/NoteConverter.py:30 | true division raises `ZeroDivisionError` exactly when the divisor is 0; otherwise the quotient times the divisor is the dividend |
| `Builtins.Log2` | Analisis/NoteConverter.py:30 | `math.log2` raises its domain error exactly for arguments `<= 0`; otherwise it is the logarithm |
| `Builtins.IntToString` | Analisis/NoteConverter.py:63 | `str(i)` starts with `-` exactly for negative `i`, and the rest is a non-empty run of digits |
| `Builtins.NatToString` | Analisis/NoteConverter.py:63 | the decimal digits of a natural number are non-empty and have no leading zero unless the number is 0 |
| `Builtins.OnlyZeroStartsWithZero` | Analisis/NoteConverter.py:63 | a printed natural number that starts with `0` is exactly `"0"` |
| `Builtins.IntToStringCanonical` | Analisis/NoteConverter.py:63 | `str(i)` is not zero-padded: a non-negative integer printed with a leading `0` is exactly `"0"`, and a negative one has no `0` right after the sign |
| `Builtins.ParseNatToString` | Analisis/NoteConverter.py:63 | reading the printed digits back gives the number back |
| `Builtins.ParseIntToString` | Analisis/NoteConverter.py:63 | reading the printed integer back, sign included, gives the integer back |
| `Builtins.IntToStringInjective` | Analisis/NoteConverter.py:63 | different octaves print differently |
| `NoteConverter.NewConverter` | Analisis/NoteConverter.py:11-18 | the constructor stores the reference frequency unchanged, 440.0 by default |
| `NoteConverter.PitchClass` | Analisis/NoteConverter.py:46-47 | `midi % 12` is always a valid index into the twelve-name table and differs from `midi` by a multiple of 12 |
| `NoteConverter.Octave` | Analisis/NoteConverter.py:51 | `midi // 12 - 1` is the octave whose twelve MIDI numbers `12*(octave+1) .. 12*(octave+1)+11` contain `midi` |
| `NoteConverter.NoteName` | Analisis/NoteConverter.py:14 | the note name is always one of the twelve names of the table |
| `NoteConverter.MidiDecomposition` | Analisis/NoteConverter.py:46-51 | every integer, negative ones included, is `12*(octave+1) + index` for its own index and octave |
| `NoteConverter.MidiComposition` | Analisis/NoteConverter.py:46-51 | conversely, an index in 0..11 and an octave are recovered from `12*(octave+1) + index` |
| `NoteConverter.DistinctMidiDistinctNotes` | Analisis/NoteConverter.py:46-51 | distinct MIDI numbers give distinct (name, octave) pairs |
| `NoteConverter.Label` | Analisis/NoteConverter.py:63 | `f'{note_name}{octave}'` starts with the note name and continues with decimal digits that read back as the octave |
| `NoteConverter.NameIndexOfName` | Analisis/NoteConverter.py:14 | looking a name of the table up finds its own position, so the twelve names are distinct |
| `NoteConverter.LabelRoundTrip` | Analisis/NoteConverter.py:63 | the label `f'{note_name}{octave}'` splits back into the pitch class and the octave, negative octaves included |
| `NoteConverter.LabelInjective` | Analisis/NoteConverter.py:63 | different MIDI numbers have different labels |
| `NoteConverter.Anchors` | Analisis/NoteConverter.py:49-51 | MIDI 69 is A in octave 4, labelled `A4`; MIDI 60 is `C4` |
| `NoteConverter.SemitonePosition` | Analisis/NoteConverter.py:30 | with the exact logarithm, the position `12*log2(ratio) + 69` is the one whose ideal ratio `2**((position-69)/12)` lies 0 octaves from the given ratio (`log2` of their quotient is 0) |
| `NoteConverter.IdealFrequency` | Analisis/NoteConverter.py:54 | `a4 * 2**((midi-69)/12)` is positive for a positive reference when `2 **` is positive (`Exp2Positive`), 0 for a reference of 0, and with the exact logarithm it lies `(midi-69)/12` octaves from A4 |
| `NoteConverter.FrequencyToMidi` | Analisis/NoteConverter.py:20-33 | `_frequency_to_midi` returns 0 for `f <= 0`; for `f > 0` it raises exactly when the reference is not positive, `ZeroDivisionError` when it is 0; otherwise it returns an integer nearest to `12*log2(f/a4) + 69` |
| `NoteConverter.FrequencyToMidiValue` | Analisis/NoteConverter.py:30-33 | for a positive frequency and reference the result is `round(12*log2(f/a4) + 69)` |
| `NoteConverter.CentsOffset` | Analisis/NoteConverter.py:54-64 | the cents value succeeds for a positive frequency and reference when `2 **` is positive (`Exp2Positive`), and is then an integer nearest to `1200*log2(f/f_ideal)` |
| `NoteConverter.GetNoteInfo` | Analisis/NoteConverter.py:35-65 | `N/A` for `f <= 0`; an error for a non-positive reference; for a positive reference, when `2 **` is positive (`Exp2Positive`), a pitched note whose name is in the table, whose (name, octave) is the MIDI number nearest to the frequency's position, and whose `note_full` reads back as that name and octave |
| `NoteConverter.NoteFullIsLabel` | Analisis/NoteConverter.py:43-63 | a pitched result's `note_full` is the label of the number `_frequency_to_midi` returned |
| `NoteConverter.NonPositiveFrequencyDict` | Analisis/NoteConverter.py:39-40 | for `f <= 0` the dictionary is exactly `{'note': 'N/A', 'octave': 0, 'cents': 0}`, with no `note_full` key |
| `NoteConverter.CentsWithinHalfSemitone` | Analisis/NoteConverter.py:54-64 | with the exact logarithm the cents deviation from the nearest note is between -50 and +50 inclusive |
| `NoteConverter.MidiAtIdealFrequency` | Analisis/NoteConverter.py:30-33 | with the exact logarithm, the MIDI number of the ideal frequency `a4 * 2**((midi-69)/12)` of a note is that note's number |
| `NoteConverter.CentsAtIdealFrequency` | Analisis/NoteConverter.py:54-58 | with the exact logarithm, the ideal frequency of a note is 0 cents away from it |
| `NoteConverter.IdealFrequencyRoundTrip` | Analisis/NoteConverter.py:43-64 | with the exact logarithm, `get_note_info` at a note's ideal frequency names exactly that note, with label and 0 cents |
| `NoteConverter.CentsRangeIsTight` | Analisis/NoteConverter.py:58-64 | with the exact logarithm both -50 and +50 cents occur: the two half-way points around A#4 round to A#4 (the even MIDI number 70) |
| `NoteConverter.TieMidi` | Analisis/NoteConverter.py:30-33 | with the exact logarithm, the frequencies at positions 69.5 and 70.5 both convert to MIDI 70 |
| `NoteConverter.TieCents` | Analisis/NoteConverter.py:54-64 | with the exact logarithm, against MIDI 70 those two frequencies lie -50 and +50 cents off |
| `FftAnalyzer.NewAnalyzer` | Analisis/FFT_Analyzer.py:11-14 | the analyzer keeps the rate (44100 by default) and delegates to a converter with A4 = 440 |
| `FftAnalyzer.ArgMax` | Analisis/FFT_Analyzer.py:37 | `np.argmax` gives the first position of a maximum: nothing later is larger and everything earlier is smaller |
| `FftAnalyzer.FirstArgMaxUnique` | Analisis/FFT_Analyzer.py:37 | only one position is the first position of a maximum |
| `FftAnalyzer.PeakBin` | Analisis/FFT_Analyzer.py:37 | the peak bin lies in `[2, len)`, is a maximum of `magnitude[2:]`, and every bin in `[2, peak)` is strictly smaller |
| `FftAnalyzer.BinFrequency` | Analisis/FFT_Analyzer.py:41 | `peak * (rate/N)` times the chunk length N is `peak * rate` |
| `FftAnalyzer.NyquistBound` | Analisis/FFT_Analyzer.py:41-45 | the bin frequency `peak * (rate/N)` times N is `peak * rate`, lies at or below `rate/2` for a non-negative rate, and is below 50 Hz exactly when `peak * rate < 50 * N` |
| `FftAnalyzer.AnalyzeFrequency` | Analisis/FFT_Analyzer.py:37-48 | the estimate is exactly 0.0 or at least 50; it is 0.0 exactly when `peak * rate < 50 * N`; otherwise it is `peak * rate / N`, with N the chunk length; for a non-negative rate it never exceeds `rate/2` |
| `FftAnalyzer.GetTuningInfo` | Analisis/FFT_Analyzer.py:50-61 | the `Silence/Noise` dictionary exactly when the estimate is 0.0; otherwise the converter's result for the estimate, which is never `N/A`; it fails exactly when the converter fails, with the converter's error |
| `FftAnalyzer.DefaultAnalyzerNeverFails` | Analisis/FFT_Analyzer.py:55-61 | when `2 **` is positive (`Exp2Positive`), an analyzer built with the defaults never raises, and its silence dictionary is exactly `{'note_full': 'Silence/Noise', 'cents': 0}` |
| `Fft.Mul` | main.py:37 | the complex product has `1` as its unit and `0` as an absorbing element |
| `Fft.Evens` | main.py:35 | `signal[0::2]` has `(N+1)//2` entries |
| `Fft.Odds` | main.py:36 | `signal[1::2]` has `N//2` entries |
| `Fft.Halves` | main.py:35-36 | a power-of-two signal splits into two halves of equal length that are again powers of two |
| `Fft.Transform` | main.py:31-39 | on a power-of-two length the transform has as many entries as its input |
| `Fft.TransformOfShort` | main.py:33-34 | a signal of length at most one is returned unchanged |
| `Fft.TransformStep` | main.py:35-39 | a longer signal is the recombination of the transforms of its even and odd halves |
| `Fft.Combine` | main.py:37-39 | the recombined list is twice as long as a half; entry `k` of the first half is `even[k] + tw(k,N)*odd[k]`, entry `k` of the second half is `even[k] - tw(k,N)*odd[k]` |
| `Fft.CombineAt` | main.py:37-39 | the recombination puts `even[k] + T[k]` at `k` and `even[k] - T[k]` at `k + N/2` |
| `Fft.Butterfly` | main.py:37-39 | for `k < N/2`, entry `k` of the transform is `even[k] + tw(k,N)*odd[k]` and entry `k + N/2` is `even[k] - tw(k,N)*odd[k]` |
| `Fft.MulDistributes` | main.py:37 | complex multiplication distributes over addition |
| `Fft.CombineAdditive` | main.py:37-39 | the recombination step maps a sum of halves to the sum of the recombinations |
| `Fft.SplitOfSum` | main.py:35-36 | the even and odd halves of a sum of signals are the sums of the halves |
| `Fft.TransformAdditive` | main.py:31-39 | whatever the twiddles, the transform of a sum of signals is the sum of their transforms |
| `Fft.TransformOfZeros` | main.py:31-39 | whatever the twiddles, an all-zero signal transforms to all zeros |
| `Fft.TransformOfImpulse` | main.py:31-39 | whatever the twiddles, the unit impulse transforms to all ones |
| `Scanner.SameNoteTable` | main.py:43 | the scanner's `NOTES` table is the converter's twelve-name table, entry for entry |
| `Scanner.ScannerLabel` | main.py:48 | `NOTES[n % 12] + str(n // 12 - 1)` is the converter's label of `n` |
| `Scanner.FreqToNote` | main.py:44-49 | `None` exactly for `freq <= 0`; otherwise a label that reads back as the note nearest to `12*log2(freq/440) + 69` |
| `Scanner.FreqToNoteValue` | main.py:47-48 | for a positive frequency the label is that of `round(12*log2(freq/440) + 69)` |
| `Scanner.SameMidi` | main.py:47 | for a positive frequency, the default converter's MIDI number is the scanner's `round(12*log2(freq/440) + 69)` |
| `Scanner.FreqToNoteAgreesWithConverter` | main.py:44-48 | the scanner prints the label of the MIDI number a default converter computes for the same frequency |
| `Scanner.Lift` | main.py:61-63 | the unpacked integer samples enter the FFT as complex numbers with the sample as real part and no imaginary part, one per sample |
| `Scanner.HalfMagnitudes` | main.py:64 | the magnitudes cover the first `len(spectrum)//2` bins |
| `Scanner.PeakIndex` | main.py:66 | `magnitudes.index(max(magnitudes))` is the first position of a maximum, the same position `np.argmax` picks; bin 0 is not excluded |
| `Scanner.PeakFrequency` | main.py:67 | `peak * framerate / len(signal)` times the length is `peak * framerate`, and for a bin below `N/2` and a positive rate it lies in `[0, framerate/2)` |
| `Scanner.AnalyzeSamples` | main.py:63-68 | the frequency is that of the first maximum of the first half of the spectrum, in `[0, framerate/2)` for a positive rate; the note is `freq_to_note` of it, present exactly when the frequency is positive |

## Left out

- `Audio/AudioCapture.py` is not part of this model. It is stream I/O on a
  foreign audio library, with a callback thread writing a shared buffer.
- The WAV input of `analyze_wav` is left out: opening, reading and unpacking
  the file (main.py:54-61). So are the module-level call and `print`
  (main.py:74-75) and the expression statement `4/4` (main.py:69), which does
  nothing. The samples are an input sequence of integers; their 16-bit range
  is not modelled.
- The Hann window, `np.fft.rfft` and `np.abs` (Analisis/FFT_Analyzer.py:22-32)
  are left out. The analyzer takes the magnitude spectrum as input, together
  with the chunk length N; `WellFormedSpectrum` ties the two (`N//2 + 1`
  bins).
- `math.log2`, `2 **`, `cmath.exp` and `abs` of a complex number are held
  abstract. Floating-point rounding, NaN and infinities are not modelled:
  frequencies are exact reals.
- NoteConverter.CentsWithinHalfSemitone: the cents bound is proved only under
  the exact-logarithm hypothesis, not for floating-point `math.log2`. In
  exact arithmetic the cents value lies in the closed range [-50, +50]. The
  MIDI number is the rounded position, so the position is within one half of
  it and the cents value never leaves [-50, 50]. Both ends occur: the
  half-way positions 69.5 and 70.5 both round to the even MIDI number 70,
  giving -50 and +50 cents (`CentsRangeIsTight`).
- Fft.Transform: requires a length of 0 or a power of two. On other lengths
  the Python recursion drops entries or raises `IndexError`; that behaviour
  is not modelled.
- FftAnalyzer.PeakBin: requires at least three bins, because `np.argmax` of
  the empty slice `magnitude[2:]` raises `ValueError`. `AnalyzeFrequency` and
  `GetTuningInfo` inherit this precondition.
- Scanner.AnalyzeSamples: requires a power-of-two number of samples, at
  least two. This inherits the precondition of `Fft.Transform`, and `max` of
  an empty list raises `ValueError` for fewer than two samples.
