// The spectral key estimator of src/utils/audioAnalysis/keyDetection.ts:
// 16384-sample windows every 4096 samples over the first 60 seconds, a
// chromagram over octaves 1..7 with a two-bin neighbourhood, max-
// normalisation after at least one window, and the normalised-template
// key scan.

module KeyDetection {
  import opened Numeric
  import opened Argmax
  import opened Wrappers
  import opened LagScan
  import opened Chroma
  import opened KeyProfiles

  const FftSize: nat := 16384
  /** fftSize / 4. */
  const HopSize: nat := 4096
  /** fftSize / 2: the bins of each magnitude spectrum. */
  const SpectrumBins: nat := 8192
  /** Bins on each side of a note's centre bin, weighted 1 - |d| / 3. */
  const Radius: nat := 2

  /** Math.min(data.length, sampleRate * 60). */
  function AnalysisLength(dataLength: nat, sampleRate: nat): nat
  {
    Min(dataLength, sampleRate * 60)
  }

  /** `for (let i = 0; i < analysisLength - fftSize; i += hopSize)`: how many windows run. */
  function WindowCount(analysisLength: nat): nat
  {
    CountFrom(HopSize, 0, analysisLength as int - FftSize)
  }

  /** Every window that runs lies wholly inside the analysed samples, so its slice is a full 16384 samples. */
  lemma WindowsAreFull(analysisLength: nat, w: nat)
    requires w < WindowCount(analysisLength)
    ensures w * HopSize + FftSize < analysisLength
  {
    CountFromBound(HopSize, 0, analysisLength as int - FftSize, w);
  }

  /**
   * The window loop: window w adds note n's energy summed over octaves
   * 1..7 at bin(n, octave), skipping centre bins outside (0, 8192).
   * `spectrum(w)` is the magnitude spectrum of the Hann-tapered window
   * starting at sample 4096 w, and `bin(n, octave)` the rounded bin of
   * that note's frequency; the model does not compute either.
   */
  method AccumulateWindows(analysisLength: nat, spectrum: nat -> seq<real>, bin: (nat, nat) -> int)
    returns (chromagram: seq<real>, windowCount: nat)
    ensures windowCount == WindowCount(analysisLength)
    ensures chromagram == Accumulated(spectrum, bin, Radius, Unweighted, 1, 7, windowCount)
  {
    chromagram := Silence;
    windowCount := 0;
    var limit: int := analysisLength as int - FftSize;
    var i := 0;
    while i < limit
      invariant windowCount + CountFrom(HopSize, i, limit) == CountFrom(HopSize, 0, limit)
      invariant chromagram == Accumulated(spectrum, bin, Radius, Unweighted, 1, 7, windowCount)
      decreases limit - i
    {
      chromagram := AddWindow(chromagram, spectrum(windowCount), bin, Radius, Unweighted, 1, 7);
      windowCount := windowCount + 1;
      i := i + HopSize;
    }
  }

  /** The chroma after `if (windowCount > 0) { ... if (maxEnergy > 0) divide by it }`. */
  function NormalizedChroma(chromagram: seq<real>, windowCount: nat): seq<real>
    requires |chromagram| > 0
  {
    if windowCount > 0 && MaxOf(chromagram) > 0.0 then Scaled(chromagram, MaxOf(chromagram)) else chromagram
  }

  method Normalize(chromagram: seq<real>, windowCount: nat) returns (r: seq<real>)
    requires |chromagram| > 0
    ensures r == NormalizedChroma(chromagram, windowCount)
  {
    r := chromagram;
    if windowCount > 0 {
      r := MaxNormalize(chromagram);
    }
  }

  /**
   * For non-negative spectra the normalised chroma lies in [0, 1] with some
   * entry exactly 1 when a window ran and some energy was found; otherwise
   * it is the all-zero or unnormalised accumulation, unchanged.
   */
  lemma ChromaRange(spectrum: nat -> seq<real>, bin: (nat, nat) -> int, n: nat)
    requires forall w :: 0 <= w < n ==> AllNonNeg(spectrum(w))
    ensures var raw := Accumulated(spectrum, bin, Radius, Unweighted, 1, 7, n);
            AllNonNeg(raw) &&
            if n > 0 && MaxOf(raw) > 0.0 then
              (forall i :: 0 <= i < 12 ==> 0.0 <= NormalizedChroma(raw, n)[i] <= 1.0) &&
              (exists i :: 0 <= i < 12 && NormalizedChroma(raw, n)[i] == 1.0)
            else NormalizedChroma(raw, n) == raw
  {
    var raw := Accumulated(spectrum, bin, Radius, Unweighted, 1, 7, n);
    AccumulatedNonNeg(spectrum, bin, Radius, Unweighted, 1, 7, n);
    if n > 0 && MaxOf(raw) > 0.0 {
      assert NormalizedChroma(raw, n) == Scaled(raw, MaxOf(raw));
      MaxNormalizedRange(raw);
    } else {
      assert NormalizedChroma(raw, n) == raw;
    }
  }

  /** With no window (fewer than 16385 samples analysed) the chroma is silent and the key is "C Major". */
  lemma NoWindowGivesCMajor(sqrt: real -> real, w: Option<nat>)
    requires SqrtLike(sqrt)
    requires FirstStrictMax(CandidateScores(NormalizedChroma(Silence, 0), NormalizedMajor(sqrt), NormalizedMinor(sqrt)), NegInfinity, w)
    requires w.Some? && w.value < 24
    ensures KeyName(Candidate(w.value)) == "C Major"
  {
    ZeroChromaGivesCMajor(Silence, NormalizedMajor(sqrt), NormalizedMinor(sqrt), NegInfinity, w);
  }

  /**
   * detectKey: accumulate, normalise, then analyzeKeyFromChromagram, the
   * first strict maximum from -Infinity over the 24 candidates scored
   * against the L2-normalised templates.
   */
  method DetectKey(data: seq<real>, sampleRate: nat, spectrum: nat -> seq<real>, bin: (nat, nat) -> int,
                   sqrt: real -> real) returns (key: string, ghost chroma: seq<real>, ghost w: Option<nat>)
    requires SqrtLike(sqrt)
    ensures var n := WindowCount(AnalysisLength(|data|, sampleRate));
            chroma == NormalizedChroma(Accumulated(spectrum, bin, Radius, Unweighted, 1, 7, n), n)
    ensures FirstStrictMax(CandidateScores(chroma, NormalizedMajor(sqrt), NormalizedMinor(sqrt)), NegInfinity, w)
    ensures w.Some? && w.value < 24 && key == KeyName(Candidate(w.value)) && IsKeyName(key)
  {
    var analysisLength := AnalysisLength(|data|, sampleRate);
    var chromagram, windowCount := AccumulateWindows(analysisLength, spectrum, bin);
    chromagram := Normalize(chromagram, windowCount);
    chroma := chromagram;
    key, w := ScanNormalized(chromagram, sqrt);
  }
}
