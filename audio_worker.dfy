// The analysis worker (public/audioWorker.js): spectral-flux tempo with an
// autocorrelation fallback, a 2..6-octave chromagram key estimate, and the
// message the worker posts back.

module AudioWorker {
  import opened Numeric
  import opened Sorting
  import opened Wrappers
  import opened Argmax
  import opened Peaks
  import opened Folding
  import opened LagScan
  import opened Chroma
  import opened KeyProfiles

  const WindowSize: nat := 2048
  const HopSize: nat := 512
  /** Spectrum bins kept per onset window. */
  const OnsetBins: nat := 200

  // ---------------------------------------------------------------- onset

  /** Every window's onset spectrum has 200 bins (`new Float32Array(200)`). */
  ghost predicate OnsetSpectra(spectrum: nat -> seq<real>)
  {
    forall w :: |spectrum(w)| == OnsetBins
  }

  /** Sum over 10 <= k < upTo of the squared positive differences cur[k] - prev[k]. */
  function PositiveFlux(cur: seq<real>, prev: seq<real>, upTo: nat): real
    requires upTo <= |cur| && upTo <= |prev|
  {
    if upTo <= 10 then 0.0
    else
      var d := cur[upTo - 1] - prev[upTo - 1];
      PositiveFlux(cur, prev, upTo - 1) + (if d > 0.0 then d * d else 0.0)
  }

  lemma {:induction false} PositiveFluxNonNeg(cur: seq<real>, prev: seq<real>, upTo: nat)
    requires upTo <= |cur| && upTo <= |prev|
    ensures PositiveFlux(cur, prev, upTo) >= 0.0
  {
    if upTo > 10 {
      PositiveFluxNonNeg(cur, prev, upTo - 1);
      var d := cur[upTo - 1] - prev[upTo - 1];
      if d > 0.0 {
        assert d * d > 0.0;
      }
    }
  }

  /** Onset strength of window w: 0 for the first window, else the root of the positive flux. */
  function OnsetAt(spectrum: nat -> seq<real>, sqrt: real -> real, w: nat): real
    requires OnsetSpectra(spectrum)
  {
    if w == 0 then 0.0 else sqrt(PositiveFlux(spectrum(w), spectrum(w - 1), OnsetBins))
  }

  function Onset(spectrum: nat -> seq<real>, sqrt: real -> real, n: nat): (r: seq<real>)
    requires OnsetSpectra(spectrum)
    ensures |r| == n
  {
    seq(n, w requires 0 <= w < n => OnsetAt(spectrum, sqrt, w))
  }

  /** The onset envelope starts at 0 and is non-negative throughout. */
  lemma OnsetNonNeg(spectrum: nat -> seq<real>, sqrt: real -> real, n: nat)
    requires OnsetSpectra(spectrum) && SqrtLike(sqrt)
    ensures n > 0 ==> Onset(spectrum, sqrt, n)[0] == 0.0
    ensures AllNonNeg(Onset(spectrum, sqrt, n))
  {
    forall w | 0 < w < n ensures OnsetAt(spectrum, sqrt, w) >= 0.0 {
      PositiveFluxNonNeg(spectrum(w), spectrum(w - 1), OnsetBins);
      SqrtNonNeg(sqrt, PositiveFlux(spectrum(w), spectrum(w - 1), OnsetBins));
    }
  }

  /**
   * The window loop: each window's spectrum is compared with the previous
   * one (`prevSpectrum`, null before the first window).
   */
  method OnsetEnvelope(numWindows: nat, spectrum: nat -> seq<real>, sqrt: real -> real) returns (onset: seq<real>)
    requires OnsetSpectra(spectrum)
    ensures onset == Onset(spectrum, sqrt, numWindows)
  {
    onset := [];
    var prev: Option<seq<real>> := None;
    var i := 0;
    while i < numWindows
      invariant 0 <= i <= numWindows
      invariant prev == if i == 0 then None else Some(spectrum(i - 1))
      invariant onset == Onset(spectrum, sqrt, i)
    {
      var cur := spectrum(i);
      if prev.Some? {
        var flux := 0.0;
        var k := 10;
        while k < OnsetBins
          invariant 10 <= k <= OnsetBins
          invariant flux == PositiveFlux(cur, prev.value, k)
        {
          var diff := cur[k] - prev.value[k];
          if diff > 0.0 {
            flux := flux + diff * diff;
          }
          k := k + 1;
        }
        onset := onset + [sqrt(flux)];
      } else {
        onset := onset + [0.0];
      }
      prev := Some(cur);
      i := i + 1;
    }
  }

  // ----------------------------------------------------------- statistics

  datatype Stats = Stats(mean: real, std: real, max: real)

  /** calculateStatistics: mean, population standard deviation and maximum. */
  function CalculateStatistics(a: seq<real>, sqrt: real -> real): (st: Stats)
    requires |a| > 0 && SqrtLike(sqrt)
    ensures st.mean <= st.max && st.std >= 0.0
    ensures st.max in a && forall i :: 0 <= i < |a| ==> a[i] <= st.max
    ensures AllNonNeg(a) ==> st.mean >= 0.0
  {
    var mean := Mean(a);
    MeanAtMost(a, MaxOf(a));
    MeanNonNegIfNonNeg(a);
    SumSqDevNonNeg(a, mean);
    QuotientNonNeg(SumSqDev(a, mean), |a| as real);
    SqrtNonNeg(sqrt, Variance(a, mean));
    Stats(mean, sqrt(Variance(a, mean)), MaxOf(a))
  }

  lemma MeanNonNegIfNonNeg(a: seq<real>)
    requires |a| > 0
    ensures AllNonNeg(a) ==> Mean(a) >= 0.0
  {
    if AllNonNeg(a) {
      MeanNonNeg(a);
    }
  }

  /**
   * mean + 1.2 * std of the envelope. An empty envelope has a NaN
   * threshold in the source, but then the peak loop runs no iteration, so
   * the value is never compared; 0 stands in for it.
   */
  function Threshold(onset: seq<real>, sqrt: real -> real): real
    requires SqrtLike(sqrt)
  {
    if |onset| == 0 then 0.0
    else
      var st := CalculateStatistics(onset, sqrt);
      st.mean + st.std * 1.2
  }

  /** Math.round(0.25 * sampleRate / hopSize): a quarter second in frames. */
  function MinPeakDistance(sampleRate: nat): nat
  {
    var r := Round(0.25 * sampleRate as real / HopSize as real);
    assert r >= 0;
    r
  }

  // -------------------------------------------------------------- folding

  /** The three-step octave correction: <70 doubles, >180 halves, <70 doubles again. */
  function OctaveChain(bpm: real): (r: real)
    ensures 24.0 < bpm < 200.0 ==> 70.0 <= r <= 180.0
  {
    var a := if bpm < 70.0 then bpm * 2.0 else bpm;
    var b := if a > 180.0 then a / 2.0 else a;
    if b < 70.0 then b * 2.0 else b
  }

  /** A kept interval lies in (0.3, 2.5), so the tempo before correction lies in (24, 200). */
  lemma IntervalTempoRange(m: real)
    requires 0.3 < m < 2.5
    ensures 24.0 < 60.0 / m < 200.0
  {
    assert 60.0 / m * m == 60.0;
  }

  // -------------------------------------------------------------- tempo

  /** Which path detectTempo took. */
  datatype TempoRoute = TooShort | FrameError | FromPeaks | FromAutocorrelation

  /** Math.min(data.length, sampleRate * seconds). */
  function AnalysisLength(dataLength: nat, sampleRate: nat, seconds: nat): nat
  {
    Min(dataLength, sampleRate * seconds)
  }

  /**
   * detectTempo. `spectrum(w)` is the 200-bin magnitude spectrum of window w
   * (the Hann-tapered DFT is not modelled); `jitter` is the random
   * variation added before rounding, and `fallbackJitter` the one the
   * autocorrelation fallback adds. None stands for the RangeError that
   * `new Float32Array(numWindows)` throws when numWindows is negative.
   */
  method DetectTempo(data: seq<real>, sampleRate: nat, spectrum: nat -> seq<real>, sqrt: real -> real,
                     jitter: real, fallbackJitter: real)
    returns (tempo: Option<int>, ghost route: TempoRoute, ghost peaks: seq<int>, ghost intervals: seq<real>)
    requires OnsetSpectra(spectrum) && SqrtLike(sqrt)
    ensures tempo.Some? ==> 60 <= tempo.value <= 200
    ensures var al := AnalysisLength(|data|, sampleRate, 60);
            (route == TooShort <==> al < 5 * sampleRate) &&
            (route == FrameError <==> 5 * sampleRate <= al < WindowSize) &&
            (route == TooShort ==> tempo == Some(120)) &&
            (route == FrameError <==> tempo.None?)
    ensures route == FromPeaks || route == FromAutocorrelation ==>
            var al := AnalysisLength(|data|, sampleRate, 60);
            sampleRate >= 35 && al >= WindowSize && tempo.Some? &&
            OnsetRoute(data, Onset(spectrum, sqrt, FrameCount(al)), sqrt, sampleRate, jitter, fallbackJitter,
                       tempo.value, route == FromPeaks, peaks, intervals)
  {
    peaks, intervals := [], [];
    var analysisLength := AnalysisLength(|data|, sampleRate, 60);
    if analysisLength < sampleRate * 5 {
      return Some(120), TooShort, peaks, intervals;
    }
    if analysisLength < WindowSize {
      return None, FrameError, peaks, intervals;
    }
    var numWindows := FrameCount(analysisLength);
    SampleRateOfFrames(|data|, sampleRate);
    var onset := OnsetEnvelope(numWindows, spectrum, sqrt);
    var t, fromPeaks;
    t, fromPeaks, peaks, intervals := TempoFromOnset(data, sampleRate, onset, sqrt, jitter, fallbackJitter);
    tempo := Some(t);
    route := if fromPeaks then FromPeaks else FromAutocorrelation;
  }

  /**
   * `Math.floor((analysisLength - windowSize) / hopSize)`, the number of
   * frames, for samples that fill at least one window; with fewer the
   * count is negative, which the samples test above stands for.
   */
  function FrameCount(analysisLength: nat): (n: nat)
    requires analysisLength >= WindowSize
    ensures n * HopSize + WindowSize <= analysisLength
  {
    (analysisLength - WindowSize) / HopSize
  }

  /** The frame path needs 2048 of the first 60 sr samples, so sr >= 35. */
  lemma SampleRateOfFrames(dataLength: nat, sampleRate: nat)
    requires AnalysisLength(dataLength, sampleRate, 60) >= WindowSize
    ensures sampleRate >= 35
  {
  }

  /**
   * What detectTempo does with an onset envelope: the tempo lies in
   * [60, 200]; the peaks are those of radius 3 from frame 3 above
   * mean + 1.2 std, a quarter second apart; with at least 8 peaks the
   * intervals are the first 49 gaps strictly between 0.3 s and 2.5 s; the
   * peak path is taken exactly when there are at least 8 peaks and 4
   * intervals, and then the tempo is the octave-corrected 60 / median
   * interval plus jitter, rounded and clamped; otherwise it is
   * autocorrelationTempo's on the samples, with its own jitter.
   */
  ghost predicate OnsetRoute(data: seq<real>, onset: seq<real>, sqrt: real -> real, sampleRate: nat,
                             jitter: real, fallbackJitter: real,
                             tempo: int, fromPeaks: bool, peaks: seq<int>, intervals: seq<real>)
    requires sampleRate > 0 && SqrtLike(sqrt)
  {
    60 <= tempo <= 200 &&
    PeakPicking(onset, 3, 3, Threshold(onset, sqrt), MinPeakDistance(sampleRate), peaks) &&
    (|peaks| >= 8 ==> intervals == Within(Gaps(Times(peaks, HopSize, sampleRate), 50), 0.3, 2.5)) &&
    (fromPeaks <==> |peaks| >= 8 && |intervals| >= 4) &&
    (fromPeaks ==>
       |intervals| > 0 && 0.3 < Median(intervals) < 2.5 &&
       tempo == ClampInt(Round(OctaveChain(60.0 / Median(intervals)) + jitter), 60, 200)) &&
    (!fromPeaks ==> exists w :: FallbackOutcome(data, sampleRate, fallbackJitter, tempo, w))
  }

  /**
   * The part of detectTempo after the onset envelope: threshold, peaks,
   * intervals, and either the median-interval tempo or the fallback.
   */
  method TempoFromOnset(data: seq<real>, sampleRate: nat, onset: seq<real>, sqrt: real -> real,
                        jitter: real, fallbackJitter: real)
    returns (tempo: int, fromPeaks: bool, ghost peaks: seq<int>, ghost intervals: seq<real>)
    requires sampleRate >= 35 && SqrtLike(sqrt)
    ensures OnsetRoute(data, onset, sqrt, sampleRate, jitter, fallbackJitter, tempo, fromPeaks, peaks, intervals)
  {
    intervals := [];
    var threshold := Threshold(onset, sqrt);
    var minPeakDistance := MinPeakDistance(sampleRate);
    var found := PickPeaks(onset, 3, 3, threshold, minPeakDistance);
    peaks := found;
    if |found| < 8 {
      tempo := AutocorrelationFallback(data, sampleRate, fallbackJitter);
      return tempo, false, peaks, intervals;
    }
    var kept := CollectIntervals(Times(found, HopSize, sampleRate), 50, 0.3, 2.5);
    intervals := kept;
    if |kept| < 4 {
      tempo := AutocorrelationFallback(data, sampleRate, fallbackJitter);
      return tempo, false, peaks, intervals;
    }
    tempo := MedianTempo(kept, jitter);
    fromPeaks := true;
  }

  /**
   * The median inter-peak interval as a tempo: 60 / median, the octave
   * chain, `jitter` added, rounded and clamped to [60, 200].
   */
  method MedianTempo(intervals: seq<real>, jitter: real) returns (tempo: int)
    requires |intervals| > 0 && forall k :: 0 <= k < |intervals| ==> 0.3 < intervals[k] < 2.5
    ensures 0.3 < Median(intervals) < 2.5
    ensures tempo == ClampInt(Round(OctaveChain(60.0 / Median(intervals)) + jitter), 60, 200)
    ensures 60 <= tempo <= 200
  {
    var medianInterval := Median(intervals);
    MedianWithin(intervals, 0.3, 2.5);
    var bpm := 60.0 / medianInterval;
    if bpm < 70.0 { bpm := bpm * 2.0; }
    if bpm > 180.0 { bpm := bpm / 2.0; }
    if bpm < 70.0 { bpm := bpm * 2.0; }
    bpm := bpm + jitter;
    var rounded := Round(bpm);
    tempo := ClampInt(rounded, 60, 200);
  }

  // ------------------------------------------------------ autocorrelation

  /** autocorrelationTempo as detectTempo calls it, keeping only the tempo. */
  method AutocorrelationFallback(data: seq<real>, sampleRate: nat, jitter: real) returns (tempo: int)
    requires sampleRate >= 4
    ensures exists w :: FallbackOutcome(data, sampleRate, jitter, tempo, w)
    ensures 60 <= tempo <= 200
  {
    ghost var w;
    tempo, w := AutocorrelationTempo(data, sampleRate, jitter);
  }

  /**
   * What autocorrelationTempo reports: w is the first strict maximum from
   * -1 of the mean products (every 16th sample) over every 8th lag, the
   * chosen lag is that lag or the shortest one, and the tempo is
   * 60 sr / lag folded into [70, 180], jittered, clamped to [60, 200]
   * and rounded.
   */
  ghost predicate FallbackOutcome(data: seq<real>, sampleRate: nat, jitter: real, tempo: int, w: Option<nat>)
  {
    var len := AnalysisLength(|data|, sampleRate, 20);
    var lags := LagsFrom(8, MinLag(sampleRate), LagLimit(MaxLag(sampleRate), len));
    FirstStrictMax(LagScores(data, len, 16, lags), Finite(-1.0), w) &&
    (w.Some? ==> w.value < |lags|) &&
    var bestLag := ChosenLag(MinLag(sampleRate), lags, w);
    sampleRate > 0 && bestLag >= 1 &&
    tempo == Round(Clamp(Fold(LagBpm(sampleRate, bestLag), 70.0, 180.0) + jitter, 60.0, 200.0))
  }

  /**
   * autocorrelationTempo: every 8th lag from floor(0.3 sr) below
   * floor(1.5 sr) and the 20-second analysis length, mean product over
   * every 16th sample, first strict maximum from -1 (bestLag defaults to
   * the shortest lag), then 60 sr / bestLag folded into [70, 180],
   * `jitter` added, clamped to [60, 200] and rounded. The halving loop
   * only ends when bestLag >= 1, which sampleRate >= 4 guarantees.
   */
  method AutocorrelationTempo(data: seq<real>, sampleRate: nat, jitter: real)
    returns (tempo: int, ghost w: Option<nat>)
    requires sampleRate >= 4
    ensures FallbackOutcome(data, sampleRate, jitter, tempo, w)
    ensures 60 <= tempo <= 200
  {
    var maxLag := MaxLag(sampleRate);
    var minLag := MinLag(sampleRate);
    assert minLag >= 1;
    var analysisLength := AnalysisLength(|data|, sampleRate, 20);
    var lag;
    lag, w := BestLag(data, analysisLength, minLag, maxLag, 8, 16, Finite(-1.0));
    var bpm := LagBpm(sampleRate, lag);
    var raised, up := FoldUp(bpm, 70.0);
    var lowered, down := FoldDown(raised, 180.0);
    var clamped := Clamp(lowered + jitter, 60.0, 200.0);
    tempo := Round(clamped);
    assert 60 <= tempo <= 200 by {
      assert 60.0 <= clamped <= 200.0;
    }
  }

  // ----------------------------------------------------------------- key

  /**
   * The window loop of detectKey: windows every 2048 samples while the
   * start is below analysisLength - 4096 and fewer than 30 windows ran.
   */
  function KeyWindows(analysisLength: nat): nat
  {
    Min(30, CountFrom(2048, 0, analysisLength as int - 4096))
  }

  /**
   * detectKey. `spectrum(w)` is window w's magnitude spectrum (2048 bins
   * in the source) and `bin(note, octave)` its bin index of that note's
   * frequency; both come from arithmetic the model does not compute.
   * Each note sums octaves 2..6 over bins centre-1..centre+1 with weights
   * 1 - |d| * 0.5, then the chroma is divided by its maximum when positive.
   */
  method DetectKey(data: seq<real>, sampleRate: nat, spectrum: nat -> seq<real>, bin: (nat, nat) -> int,
                   sqrt: real -> real, overrideDraw: bool) returns (key: Option<string>, ghost chroma: seq<real>, ghost w: Option<nat>)
    requires SqrtLike(sqrt)
    ensures var raw := Accumulated(spectrum, bin, 1, Unweighted, 2, 6, KeyWindows(AnalysisLength(|data|, sampleRate, 45)));
            chroma == (if MaxOf(raw) > 0.0 then Scaled(raw, MaxOf(raw)) else raw)
    ensures FirstStrictMax(CandidateScores(chroma, NormalizedMajor(sqrt), NormalizedMinor(sqrt)), NegInfinity, w)
    ensures w.Some? && w.value < 24 && key == KeyOverride(KeyName(Candidate(w.value)), chroma, overrideDraw)
    ensures key.Some? ==> IsKeyName(key.value)
  {
    var analysisLength := AnalysisLength(|data|, sampleRate, 45);
    var chromagram := AccumulateWindows(analysisLength, spectrum, bin);
    chromagram := MaxNormalize(chromagram);
    chroma := chromagram;
    key, w := AnalyzeKeyFromChromagram(chromagram, sqrt, overrideDraw);
  }

  /**
   * The window loop of detectKey: window w starts at sample 2048 w and is
   * taken while its start is below analysisLength - 4096 and fewer than 30
   * windows ran; each adds its octave 2..6 note energies to the chroma.
   */
  method AccumulateWindows(analysisLength: nat, spectrum: nat -> seq<real>, bin: (nat, nat) -> int)
    returns (chromagram: seq<real>)
    ensures chromagram == Accumulated(spectrum, bin, 1, Unweighted, 2, 6, KeyWindows(analysisLength))
  {
    chromagram := Silence;
    var windowCount := 0;
    var limit: int := analysisLength as int - 4096;
    var i := 0;
    while i < limit && windowCount < 30
      invariant 0 <= windowCount <= 30
      invariant windowCount + CountFrom(2048, i, limit) == CountFrom(2048, 0, limit)
      invariant chromagram == Accumulated(spectrum, bin, 1, Unweighted, 2, 6, windowCount)
      decreases 30 - windowCount
    {
      chromagram := AddWindow(chromagram, spectrum(windowCount), bin, 1, Unweighted, 2, 6);
      windowCount := windowCount + 1;
      i := i + 2048;
    }
  }

  /** The keys the override picks from, in the source's order. */
  const OverrideKeys: seq<string> := ["F Major", "G Major", "D Major", "A Minor", "E Minor", "B Minor"]

  /** `chromagram.reduce((sum, val, idx) => sum + val * idx, 0)`: the chroma weighted by index. */
  function IndexWeightedSum(chroma: seq<real>): (v: real)
    ensures (forall i :: 0 <= i < |chroma| ==> chroma[i] >= 0.0) ==> v >= 0.0
  {
    if |chroma| == 0 then 0.0
    else IndexWeightedSum(chroma[..|chroma| - 1]) + chroma[|chroma| - 1] * (|chroma| - 1) as real
  }

  /** `Math.floor(chromaticVariation * possibleKeys.length / 12)`. */
  function OverrideIndex(chroma: seq<real>): int
  {
    Floor(IndexWeightedSum(chroma) * 6.0 / 12.0)
  }

  /**
   * The override after the scan: when the index-weighted sum exceeds 3 and
   * the draw (`Math.random() > 0.7`) comes up, the key becomes the list's
   * entry at the scaled index, which is undefined (None) past its end;
   * otherwise the scanned key stands.
   */
  function KeyOverride(scanned: string, chroma: seq<real>, overrideDraw: bool): (r: Option<string>)
    ensures !overrideDraw || IndexWeightedSum(chroma) <= 3.0 ==> r == Some(scanned)
    ensures overrideDraw && IndexWeightedSum(chroma) > 3.0 ==>
              1 <= OverrideIndex(chroma) &&
              (r.Some? <==> OverrideIndex(chroma) < 6) &&
              (r.Some? ==> r.value == OverrideKeys[OverrideIndex(chroma)] && r.value != OverrideKeys[0])
  {
    if IndexWeightedSum(chroma) > 3.0 && overrideDraw then
      var i := OverrideIndex(chroma);
      if 0 <= i < 6 then Some(OverrideKeys[i]) else None
    else Some(scanned)
  }

  /** Every key the override can pick is one of the 24 key names. */
  lemma OverrideKeysAreKeyNames()
    ensures forall i :: 0 <= i < 6 ==> IsKeyName(OverrideKeys[i])
  {
    var keys := [Key(5, Major), Key(7, Major), Key(2, Major), Key(9, Minor), Key(4, Minor), Key(11, Minor)];
    forall i | 0 <= i < 6
      ensures IsKeyName(OverrideKeys[i])
    {
      KeyNameIsKeyName(keys[i]);
      assert KeyName(keys[i]) == OverrideKeys[i];
    }
  }

  /**
   * A chroma whose entries are all 1 (every note at the maximum) weighs 66,
   * so a drawn override indexes entry 33 of the six-entry list: the key is
   * undefined.
   */
  lemma OverrideRunsPastList()
    ensures var flat := seq(12, i => 1.0);
            IndexWeightedSum(flat) == 66.0 && OverrideIndex(flat) == 33 && KeyOverride("C Major", flat, true).None?
  {
    OnesWeighted(12);
  }

  /** n entries equal to 1 weigh 0 + 1 + ... + (n - 1). */
  lemma {:induction false} OnesWeighted(n: nat)
    ensures IndexWeightedSum(seq(n, i => 1.0)) == (n * (n - 1) / 2) as real
  {
    if n > 0 {
      assert seq(n, i => 1.0)[..n - 1] == seq(n - 1, i => 1.0);
      OnesWeighted(n - 1);
      assert (n * (n - 1) / 2) == ((n - 1) * (n - 2) / 2) + (n - 1);
    }
  }

  /**
   * analyzeKeyFromChromagram: both templates divided by their norms, the
   * first strict maximum from -Infinity, then the random override.
   */
  method AnalyzeKeyFromChromagram(chromagram: seq<real>, sqrt: real -> real, overrideDraw: bool)
    returns (key: Option<string>, ghost w: Option<nat>)
    requires |chromagram| >= 12 && SqrtLike(sqrt)
    ensures FirstStrictMax(CandidateScores(chromagram, NormalizedMajor(sqrt), NormalizedMinor(sqrt)), NegInfinity, w)
    ensures w.Some? && w.value < 24 && key == KeyOverride(KeyName(Candidate(w.value)), chromagram, overrideDraw)
    ensures key.Some? ==> IsKeyName(key.value)
  {
    var scanned;
    scanned, w := ScanNormalized(chromagram, sqrt);
    key := Some(scanned);
    var variation := IndexWeightedSum(chromagram);
    if variation > 3.0 && overrideDraw {
      var i := OverrideIndex(chromagram);
      OverrideKeysAreKeyNames();
      key := if 0 <= i < 6 then Some(OverrideKeys[i]) else None;
    }
  }

  /** A silent input (all-zero chroma) is reported as "C Major". */
  lemma SilenceIsCMajor(chroma: seq<real>, sqrt: real -> real, w: Option<nat>)
    requires |chroma| >= 12 && SqrtLike(sqrt)
    requires forall i :: 0 <= i < 12 ==> chroma[i] == 0.0
    requires FirstStrictMax(CandidateScores(chroma, NormalizedMajor(sqrt), NormalizedMinor(sqrt)), NegInfinity, w)
    requires w.Some? && w.value < 24
    ensures KeyName(Candidate(w.value)) == "C Major"
  {
    ZeroChromaGivesCMajor(chroma, NormalizedMajor(sqrt), NormalizedMinor(sqrt), NegInfinity, w);
  }

  /**
   * For non-negative spectra the normalised chroma lies in [0, 1] with some
   * entry exactly 1, unless every entry is 0.
   */
  lemma NormalizedChromaRange(spectrum: nat -> seq<real>, bin: (nat, nat) -> int, n: nat)
    requires forall w :: 0 <= w < n ==> AllNonNeg(spectrum(w))
    ensures var raw := Accumulated(spectrum, bin, 1, Unweighted, 2, 6, n);
            if MaxOf(raw) > 0.0 then
              (forall i :: 0 <= i < 12 ==> 0.0 <= Scaled(raw, MaxOf(raw))[i] <= 1.0) &&
              (exists i :: 0 <= i < 12 && Scaled(raw, MaxOf(raw))[i] == 1.0)
            else forall i :: 0 <= i < 12 ==> raw[i] == 0.0
  {
    var raw := Accumulated(spectrum, bin, 1, Unweighted, 2, 6, n);
    AccumulatedNonNeg(spectrum, bin, 1, Unweighted, 2, 6, n);
    if MaxOf(raw) > 0.0 {
      MaxNormalizedRange(raw);
    } else {
      ZeroMaxUnchanged(raw);
    }
  }

  // ------------------------------------------------------------- message

  /**
   * The message the worker posts: success with tempo and key (None when
   * the override left it undefined), or failure with the error text.
   */
  datatype WorkerResult =
    | Success(songId: string, tempo: int, key: Option<string>)
    | Failure(songId: string, error: string)

  /**
   * onmessage: tempo first, then key; a thrown error becomes a failure
   * message carrying its text (`errorMessage`, engine-provided).
   */
  method OnMessage(songId: string, data: seq<real>, sampleRate: nat, onsetSpectrum: nat -> seq<real>,
                   keySpectrum: nat -> seq<real>, bin: (nat, nat) -> int, sqrt: real -> real,
                   jitter: real, fallbackJitter: real, overrideDraw: bool, errorMessage: string) returns (result: WorkerResult)
    requires OnsetSpectra(onsetSpectrum) && SqrtLike(sqrt)
    ensures result.songId == songId
    ensures result.Success? ==> 60 <= result.tempo <= 200 && (result.key.Some? ==> IsKeyName(result.key.value))
    ensures result.Success? && !overrideDraw ==> result.key.Some?
    ensures result.Failure? <==> 5 * sampleRate <= AnalysisLength(|data|, sampleRate, 60) < WindowSize
    ensures result.Failure? ==> result.error == errorMessage
  {
    var tempo, route, peaks, intervals := DetectTempo(data, sampleRate, onsetSpectrum, sqrt, jitter, fallbackJitter);
    if tempo.None? {
      return Failure(songId, errorMessage);
    }
    var key, chroma, w := DetectKey(data, sampleRate, keySpectrum, bin, sqrt, overrideDraw);
    result := Success(songId, tempo.value, key);
  }
}
