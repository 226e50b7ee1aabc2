/** The spectrum analyzer: picks the fundamental frequency of an audio block
    from its magnitude spectrum (skipping the two lowest bins), gates out
    anything below 50 Hz, and hands the result to the note converter. */
module FftAnalyzer {
  import opened Outcomes
  import opened Builtins
  import opened NoteConverter

  /** The default sample rate, in samples per second. */
  const DefaultRate: int := 44100
  /** The bins skipped by the peak search: the DC offset and the lowest bin. */
  const SkippedBins: nat := 2
  /** Estimates below this frequency, in Hz, are reported as silence. */
  const MinFrequency: real := 50.0

  /** An analyzer: its sample rate and the converter it delegates to. */
  datatype Analyzer = Analyzer(rate: int, noteConverter: Converter)

  /** `FFTAnalyzer(rate=44100)`: the rate as given, and a converter with the
      default reference of 440 Hz. */
  function NewAnalyzer(rate: int := DefaultRate): (a: Analyzer)
    ensures a.rate == rate
    ensures a.noteConverter.a4Freq == StandardA4
  {
    Analyzer(rate, NewConverter())
  }

  /** What `get_tuning_info` returns: the silence dictionary, or the
      converter's dictionary. */
  datatype TuningInfo = SilenceNoise | Converted(info: NoteInfo) {
    function AsDict(): map<string, Value> {
      match this
      case SilenceNoise => map["note_full" := Text("Silence/Noise"), "cents" := Number(0)]
      case Converted(info) => info.AsDict()
    }
  }

  // ---------------------------------------------------------------------------
  // Peak search
  // ---------------------------------------------------------------------------

  /** `k` is the first position of a maximum of `s[lo..]`. */
  ghost predicate IsFirstArgMax(s: seq<real>, lo: nat, k: nat) {
    && lo <= k < |s|
    && (forall j | lo <= j < |s| :: s[j] <= s[k])
    && (forall j | lo <= j < k :: s[j] < s[k])
  }

  /** At most one position is the first position of a maximum. */
  lemma {:induction false} FirstArgMaxUnique(s: seq<real>, lo: nat, k1: nat, k2: nat)
    requires IsFirstArgMax(s, lo, k1) && IsFirstArgMax(s, lo, k2)
    ensures k1 == k2
  {
    // Each is a maximum, so both hold the same value; neither lies strictly
    // before the other, whose earlier values are all smaller.
    assert s[k1] == s[k2];
  }

  /** `np.argmax(s)`: the first index of a maximum of a non-empty sequence. */
  function ArgMax(s: seq<real>): (k: nat)
    requires |s| > 0
    ensures IsFirstArgMax(s, 0, k)
    decreases |s|
  {
    if |s| == 1 then 0
    else
      var rest := ArgMax(s[1..]) + 1;
      if s[0] >= s[rest] then 0 else rest
  }

  /** `np.argmax(magnitude[2:]) + 2`: the peak bin, never bin 0 or bin 1.
      The slice must be non-empty, so at least three bins are needed. */
  function PeakBin(magnitude: seq<real>): (peak: nat)
    requires |magnitude| > SkippedBins
    ensures IsFirstArgMax(magnitude, SkippedBins, peak)
  {
    var tail := magnitude[SkippedBins..];
    var k := ArgMax(tail);
    assert forall j | SkippedBins <= j < |magnitude| :: magnitude[j] == tail[j - SkippedBins];
    k + SkippedBins
  }

  /** The frequency of bin `peak` of a transform of `n` samples:
      `peak * (rate / n)`. */
  function BinFrequency(rate: int, n: nat, peak: nat): (f: real)
    requires n > 0
    ensures f * n as real == (peak * rate) as real
  {
    ScaledBin(peak as real, rate as real, n as real);
    assert (peak * rate) as real == peak as real * rate as real;
    peak as real * (rate as real / n as real)
  }

  /** The magnitude spectrum `np.abs(np.fft.rfft(...))` of an `n`-sample
      block has `n // 2 + 1` bins, and the peak search needs at least three. */
  predicate WellFormedSpectrum(n: nat, magnitude: seq<real>) {
    |magnitude| == n / 2 + 1 && |magnitude| > SkippedBins
  }

  /** `analyze_frequency`: the frequency of the peak bin, or exactly 0.0 when
      that frequency is below 50 Hz. The result is never in (0, 50), and with
      a non-negative rate never above the Nyquist frequency `rate / 2`. */
  function AnalyzeFrequency(a: Analyzer, n: nat, magnitude: seq<real>): (f0: real)
    requires WellFormedSpectrum(n, magnitude)
    ensures f0 == 0.0 || f0 >= MinFrequency
    ensures f0 == 0.0 <==> (PeakBin(magnitude) * a.rate) as real < MinFrequency * n as real
    ensures f0 != 0.0 ==> f0 * n as real == (PeakBin(magnitude) * a.rate) as real
    ensures a.rate >= 0 ==> f0 <= a.rate as real / 2.0
  {
    var peak := PeakBin(magnitude);
    var f := BinFrequency(a.rate, n, peak);
    NyquistBound(a.rate, n, peak);
    if f < MinFrequency then 0.0 else f
  }

  /** A bin of an `n//2 + 1`-bin spectrum lies at or below half the rate,
      and the 50 Hz gate compares `peak * rate` with `50 * n`. */
  lemma {:induction false} NyquistBound(rate: int, n: nat, peak: nat)
    requires n > 0 && peak <= n / 2
    ensures BinFrequency(rate, n, peak) * n as real == (peak * rate) as real
    ensures rate >= 0 ==> BinFrequency(rate, n, peak) <= rate as real / 2.0
    ensures BinFrequency(rate, n, peak) < MinFrequency <==> (peak * rate) as real < MinFrequency * n as real
  {
    Gate(BinFrequency(rate, n, peak), (peak * rate) as real, n as real);
    if rate >= 0 {
      BinBelowNyquist(rate, n, peak);
    }
  }

  lemma {:induction false} BinBelowNyquist(rate: int, n: nat, peak: nat)
    requires n > 0 && peak <= n / 2 && rate >= 0
    ensures BinFrequency(rate, n, peak) <= rate as real / 2.0
  {
    var p, total, rate' := peak as real, n as real, rate as real;
    var r := rate' / total;
    assert p <= total / 2.0;
    MultiplyNonNegative(p, total / 2.0, r);
    HalfOfRatio(total, rate');
  }

  lemma {:induction false} ScaledBin(p: real, rate: real, n: real)
    requires n > 0.0
    ensures p * (rate / n) * n == p * rate
  {
    assert rate / n * n == rate;
  }

  lemma {:induction false} HalfOfRatio(n: real, rate: real)
    requires n > 0.0
    ensures n / 2.0 * (rate / n) == rate / 2.0
  {
  }

  /** Scaling both sides by the positive block length keeps the comparison
      with the 50 Hz gate. */
  lemma {:induction false} Gate(f: real, scaled: real, n: real)
    requires n > 0.0 && f * n == scaled
    ensures f < MinFrequency <==> scaled < MinFrequency * n
  {
  }

  lemma {:induction false} MultiplyNonNegative(x: real, y: real, r: real)
    requires x <= y && r >= 0.0
    ensures x * r <= y * r
  {
  }

  /** `get_tuning_info`: the silence dictionary exactly when the estimate is
      0.0; otherwise whatever the converter returns for the estimate, which is
      always a pitched note since the estimate is then at least 50 Hz. */
  function GetTuningInfo(a: Analyzer, t: Transcendentals, n: nat, magnitude: seq<real>)
    : (r: Result<TuningInfo, PyError>)
    requires WellFormedSpectrum(n, magnitude)
    ensures r == Ok(SilenceNoise) <==> AnalyzeFrequency(a, n, magnitude) == 0.0
    ensures r.Ok? && r.value.Converted? ==> r.value.info.Pitched?
    ensures a.noteConverter.a4Freq > 0.0 && Exp2Positive(t) ==> r.Ok?
    ensures r.Ok? && r.value.Converted? ==>
              GetNoteInfo(a.noteConverter, t, AnalyzeFrequency(a, n, magnitude)) == Ok(r.value.info)
    ensures AnalyzeFrequency(a, n, magnitude) != 0.0 ==>
              && (r.Ok? <==> GetNoteInfo(a.noteConverter, t, AnalyzeFrequency(a, n, magnitude)).Ok?)
              && (r.Err? ==> r.error == GetNoteInfo(a.noteConverter, t, AnalyzeFrequency(a, n, magnitude)).error)
  {
    var f0 := AnalyzeFrequency(a, n, magnitude);
    if f0 == 0.0 then Ok(SilenceNoise)
    else
      var info :- GetNoteInfo(a.noteConverter, t, f0);
      Ok(Converted(info))
  }

  /** The silence result is exactly `{'note_full': 'Silence/Noise', 'cents': 0}`,
      and an analyzer built with the defaults never fails. */
  lemma {:induction false} DefaultAnalyzerNeverFails(t: Transcendentals, n: nat, magnitude: seq<real>)
    requires Exp2Positive(t)
    requires WellFormedSpectrum(n, magnitude)
    ensures GetTuningInfo(NewAnalyzer(), t, n, magnitude).Ok?
    ensures GetTuningInfo(NewAnalyzer(), t, n, magnitude).value.SilenceNoise? ==>
              GetTuningInfo(NewAnalyzer(), t, n, magnitude).value.AsDict()
              == map["note_full" := Text("Silence/Noise"), "cents" := Number(0)]
  {
  }
}
