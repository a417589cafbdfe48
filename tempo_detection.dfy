// The spectral-flux tempo estimator of src/utils/audioAnalysis/tempoDetection.ts:
// a 0.97 high-pass, positive spectral flux, peak picking against 1.5 times
// the mean, a 100-bin histogram of the inter-peak intervals, octave folding
// into [80, 160], and a full-resolution autocorrelation fallback.

module TempoDetection {
  import opened Numeric
  import opened Sorting
  import opened Wrappers
  import opened Argmax
  import opened Peaks
  import opened Folding
  import opened LagScan
  import opened AudioUtils

  const WindowSize: nat := 2048
  const HopSize: nat := 512
  /** windowSize / 2: the bins of each magnitude spectrum. */
  const SpectrumBins: nat := 1024
  const HistogramBins: nat := 100

  // ---------------------------------------------------------------- flux

  /** Every window's magnitude spectrum has 1024 bins. */
  ghost predicate FluxSpectra(spectrum: nat -> seq<real>)
  {
    forall w :: |spectrum(w)| == SpectrumBins
  }

  /** `prevSpectrum` before the first window: 1024 zeros. */
  const Zeros: seq<real> := seq(SpectrumBins, k => 0.0)

  /** Sum over k < upTo of the positive differences cur[k] - prev[k]. */
  function PositiveDiffSum(cur: seq<real>, prev: seq<real>, upTo: nat): real
    requires upTo <= |cur| && upTo <= |prev|
  {
    if upTo == 0 then 0.0
    else
      var d := cur[upTo - 1] - prev[upTo - 1];
      PositiveDiffSum(cur, prev, upTo - 1) + (if d > 0.0 then d else 0.0)
  }

  lemma {:induction false} PositiveDiffSumNonNeg(cur: seq<real>, prev: seq<real>, upTo: nat)
    requires upTo <= |cur| && upTo <= |prev|
    ensures PositiveDiffSum(cur, prev, upTo) >= 0.0
  {
    if upTo > 0 {
      PositiveDiffSumNonNeg(cur, prev, upTo - 1);
    }
  }

  /** Against an all-zero previous spectrum the flux of a non-negative spectrum is its total. */
  lemma {:induction false} PositiveDiffOverZeros(cur: seq<real>, prev: seq<real>, upTo: nat)
    requires upTo <= |cur| && upTo <= |prev|
    requires forall k :: 0 <= k < upTo ==> prev[k] == 0.0 && cur[k] >= 0.0
    ensures PositiveDiffSum(cur, prev, upTo) == Sum(cur[..upTo])
  {
    if upTo > 0 {
      PositiveDiffOverZeros(cur, prev, upTo - 1);
      assert cur[..upTo][..upTo - 1] == cur[..upTo - 1];
    }
  }

  /** The onset value of window w: its positive flux against the previous window (zeros for w = 0). */
  function FluxAt(spectrum: nat -> seq<real>, w: nat): real
    requires FluxSpectra(spectrum)
  {
    PositiveDiffSum(spectrum(w), if w == 0 then Zeros else spectrum(w - 1), SpectrumBins)
  }

  function Flux(spectrum: nat -> seq<real>, n: nat): (r: seq<real>)
    requires FluxSpectra(spectrum)
    ensures |r| == n
  {
    seq(n, w requires 0 <= w < n => FluxAt(spectrum, w))
  }

  /** Onset values are non-negative; frame 0's is the total magnitude of its spectrum. */
  lemma FluxProperties(spectrum: nat -> seq<real>, n: nat)
    requires FluxSpectra(spectrum)
    ensures AllNonNeg(Flux(spectrum, n))
    ensures n > 0 && AllNonNeg(spectrum(0)) ==> Flux(spectrum, n)[0] == Sum(spectrum(0))
  {
    forall w | 0 <= w < n ensures FluxAt(spectrum, w) >= 0.0 {
      PositiveDiffSumNonNeg(spectrum(w), if w == 0 then Zeros else spectrum(w - 1), SpectrumBins);
    }
    if n > 0 && AllNonNeg(spectrum(0)) {
      PositiveDiffOverZeros(spectrum(0), Zeros, SpectrumBins);
      assert spectrum(0)[..SpectrumBins] == spectrum(0);
    }
  }

  /**
   * The window loop: each window's flux against `prevSpectrum`, which
   * starts as zeros and then holds the previous window's spectrum.
   * `spectrum(w)` is the DFT magnitude of the Hann-tapered filtered window
   * starting at sample 512 w, which the model does not compute.
   */
  method SpectralFlux(numWindows: nat, spectrum: nat -> seq<real>) returns (onset: seq<real>)
    requires FluxSpectra(spectrum)
    ensures onset == Flux(spectrum, numWindows)
  {
    onset := [];
    var prev := Zeros;
    var i := 0;
    while i < numWindows
      invariant 0 <= i <= numWindows
      invariant prev == if i == 0 then Zeros else spectrum(i - 1)
      invariant onset == Flux(spectrum, i)
    {
      var cur := spectrum(i);
      var flux := 0.0;
      var k := 0;
      while k < |cur|
        invariant 0 <= k <= |cur|
        invariant flux == PositiveDiffSum(cur, prev, k)
      {
        var diff := cur[k] - prev[k];
        if diff > 0.0 {
          flux := flux + diff;
        }
        k := k + 1;
      }
      onset := onset + [flux];
      prev := cur;
      i := i + 1;
    }
  }

  // ----------------------------------------------------------- histogram

  /**
   * Math.floor((x - min) / binSize), counted only when it lies in [0, 100).
   * A zero bin size gives NaN in the source, which fails both comparisons,
   * so nothing is counted.
   */
  function BinOf(x: real, minInterval: real, binSize: real): (b: Option<nat>)
    ensures b.Some? ==> b.value < HistogramBins
  {
    if binSize == 0.0 then None
    else
      var i := Floor((x - minInterval) / binSize);
      if 0 <= i < HistogramBins then Some(i) else None
  }

  /** How many of xs fall into bin b. */
  function BinCount(xs: seq<real>, minInterval: real, binSize: real, b: nat): nat
  {
    if |xs| == 0 then 0
    else BinCount(xs[..|xs| - 1], minInterval, binSize, b) +
         (if BinOf(xs[|xs| - 1], minInterval, binSize) == Some(b) then 1 else 0)
  }

  function Histogram(xs: seq<real>, minInterval: real, binSize: real): (h: seq<nat>)
    ensures |h| == HistogramBins
  {
    seq(HistogramBins, b requires 0 <= b < HistogramBins => BinCount(xs, minInterval, binSize, b))
  }

  /** `new Array(100).fill(0)` and `intervals.forEach(... histogram[binIdx]++)`. */
  method BuildHistogram(xs: seq<real>, minInterval: real, binSize: real) returns (histogram: seq<nat>)
    ensures histogram == Histogram(xs, minInterval, binSize)
  {
    var counts := new nat[HistogramBins](_ => 0);
    var i := 0;
    while i < |xs|
      invariant 0 <= i <= |xs|
      invariant forall b :: 0 <= b < HistogramBins ==> counts[b] == BinCount(xs[..i], minInterval, binSize, b)
    {
      assert xs[..i + 1][..i] == xs[..i];
      var bin := BinOf(xs[i], minInterval, binSize);
      if bin.Some? {
        counts[bin.value] := counts[bin.value] + 1;
      }
      i := i + 1;
    }
    assert xs[..i] == xs;
    histogram := counts[..];
  }

  /** The largest count (Math.max(...histogram)). */
  function MaxCount(h: seq<nat>): (m: nat)
    requires |h| > 0
    ensures m in h && forall b :: 0 <= b < |h| ==> h[b] <= m
  {
    if |h| == 1 then h[0]
    else
      var m := MaxCount(h[..|h| - 1]);
      assert forall b :: 0 <= b < |h| - 1 ==> h[..|h| - 1][b] == h[b];
      if h[|h| - 1] > m then h[|h| - 1] else m
  }

  /** histogram.indexOf(Math.max(...histogram)): the first fullest bin. */
  function FirstFullest(h: seq<nat>): (i: nat)
    requires |h| > 0
    ensures i < |h| && h[i] == MaxCount(h)
    ensures forall b :: 0 <= b < |h| ==> h[b] <= h[i]
    ensures forall b :: 0 <= b < i ==> h[b] < h[i]
  {
    var i := FirstIndexOf(h, MaxCount(h));
    i
  }

  function FirstIndexOf(h: seq<nat>, x: nat): (i: nat)
    requires x in h
    ensures i < |h| && h[i] == x && forall b :: 0 <= b < i ==> h[b] != x
  {
    if h[0] == x then 0
    else
      assert x in h[1..];
      var i := FirstIndexOf(h[1..], x);
      assert forall b :: 1 <= b < |h| ==> h[b] == h[1..][b - 1];
      i + 1
  }

  /** (max - min) / 100 of the sorted intervals. */
  function BinSize(sorted: seq<real>): real
    requires |sorted| > 0
  {
    (sorted[|sorted| - 1] - sorted[0]) / HistogramBins as real
  }

  /** minInterval + (maxBinIdx + 0.5) * binSize: the centre of the first fullest bin. */
  function DominantInterval(sorted: seq<real>): real
    requires |sorted| > 0
  {
    var binSize := BinSize(sorted);
    var h := Histogram(sorted, sorted[0], binSize);
    sorted[0] + (FirstFullest(h) as real + 0.5) * binSize
  }

  /**
   * With a positive bin size every interval in [min, max) is counted in
   * bin floor((x - min) / binSize) < 100, and the maximum itself, whose
   * index is exactly 100, never is.
   */
  lemma BinOfSortedInterval(sorted: seq<real>, x: real)
    requires |sorted| > 0 && BinSize(sorted) > 0.0
    requires sorted[0] <= x <= sorted[|sorted| - 1]
    ensures x < sorted[|sorted| - 1] ==> BinOf(x, sorted[0], BinSize(sorted)) == Some(Floor((x - sorted[0]) / BinSize(sorted)))
    ensures x == sorted[|sorted| - 1] ==> BinOf(x, sorted[0], BinSize(sorted)) == None
  {
    var lo, hi, bs := sorted[0], sorted[|sorted| - 1], BinSize(sorted);
    assert hi - lo == 100.0 * bs;
    if x < hi {
      QuotientBelow(x - lo, 100.0 * bs, bs);
      assert (100.0 * bs) / bs == 100.0;
    } else {
      assert (x - lo) / bs == 100.0;
    }
  }

  lemma QuotientBelow(a: real, b: real, c: real)
    requires c > 0.0 && 0.0 <= a < b
    ensures 0.0 <= a / c < b / c
  {
  }

  /** With a zero bin size nothing is counted, bin 0 is the first fullest, and the dominant interval is the minimum. */
  lemma ZeroBinSizeGivesMinimum(sorted: seq<real>)
    requires |sorted| > 0 && BinSize(sorted) == 0.0
    ensures DominantInterval(sorted) == sorted[0]
  {
    var h := Histogram(sorted, sorted[0], 0.0);
    forall b | 0 <= b < HistogramBins ensures h[b] == 0 {
      NothingCounted(sorted, sorted[0], b);
    }
    assert FirstFullest(h) == 0;
  }

  lemma {:induction false} NothingCounted(xs: seq<real>, minInterval: real, b: nat)
    ensures BinCount(xs, minInterval, 0.0, b) == 0
  {
    if |xs| > 0 {
      NothingCounted(xs[..|xs| - 1], minInterval, b);
    }
  }

  /** The dominant interval lies between the smallest and the largest interval. */
  lemma DominantWithin(sorted: seq<real>)
    requires |sorted| > 0 && Sorted(sorted)
    ensures sorted[0] <= DominantInterval(sorted) <= sorted[|sorted| - 1]
  {
    SortedEnds(sorted);
    var bs := BinSize(sorted);
    var i := FirstFullest(Histogram(sorted, sorted[0], bs));
    assert sorted[|sorted| - 1] - sorted[0] == 100.0 * bs;
    assert bs >= 0.0;
    var c := i as real + 0.5;
    var d := 100.0 - c;
    assert 0.0 < c && d > 0.0;
    assert c * bs >= 0.0 && d * bs >= 0.0;
    assert c * bs + d * bs == 100.0 * bs;
  }

  /**
   * The histogram branch of detectTempo: sort, 100-bin histogram, centre of
   * the first fullest bin, 60 / that, `while (bpm < 80) bpm *= 2`,
   * `while (bpm > 160) bpm /= 2`, Math.round and the [60, 200] clamp,
   * which never changes the rounded value.
   */
  method HistogramTempo(intervals: seq<real>) returns (tempo: int)
    requires |intervals| > 0 && forall k :: 0 <= k < |intervals| ==> 0.3 < intervals[k] < 2.0
    ensures 0.3 < DominantInterval(Sort(intervals)) < 2.0
    ensures tempo == Round(Fold(60.0 / DominantInterval(Sort(intervals)), 80.0, 160.0))
    ensures 80 <= tempo <= 160
  {
    var sorted := Sort(intervals);
    SortedWithin(intervals);
    var dominantInterval := FindDominantInterval(sorted);
    tempo := FoldTempo(60.0 / dominantInterval);
  }

  /** The sorted intervals keep the bounds, and so does their dominant interval. */
  lemma SortedWithin(intervals: seq<real>)
    requires |intervals| > 0 && forall k :: 0 <= k < |intervals| ==> 0.3 < intervals[k] < 2.0
    ensures 0.3 < DominantInterval(Sort(intervals)) < 2.0
  {
    var sorted := Sort(intervals);
    SortSameElements(intervals);
    assert sorted[0] in intervals && sorted[|sorted| - 1] in intervals;
    DominantWithin(sorted);
  }

  /** The histogram loop and the first fullest bin's centre. */
  method FindDominantInterval(sorted: seq<real>) returns (dominantInterval: real)
    requires |sorted| > 0
    ensures dominantInterval == DominantInterval(sorted)
  {
    var minInterval := sorted[0];
    var maxInterval := sorted[|sorted| - 1];
    var binSize := (maxInterval - minInterval) / HistogramBins as real;
    var histogram := BuildHistogram(sorted, minInterval, binSize);
    assert binSize == BinSize(sorted);
    var maxBinIdx := FirstFullest(histogram);
    assert maxBinIdx == FirstFullest(Histogram(sorted, sorted[0], BinSize(sorted)));
    dominantInterval := minInterval + (maxBinIdx as real + 0.5) * binSize;
  }

  /**
   * `while (bpm < 80) bpm *= 2; while (bpm > 160) bpm /= 2;`, Math.round
   * and the [60, 200] clamp, which then never changes the rounded value:
   * the rounded reference fold into [80, 160], so a start already in
   * range is only rounded.
   */
  method FoldTempo(bpm: real) returns (tempo: int)
    requires bpm > 0.0
    ensures tempo == Round(Fold(bpm, 80.0, 160.0))
    ensures 80 <= tempo <= 160
    ensures 80.0 <= bpm <= 160.0 ==> tempo == Round(bpm)
  {
    var raised, up := FoldUp(bpm, 80.0);
    var lowered, down := FoldDown(raised, 160.0);
    Folded(bpm, 80.0, 160.0, raised, up, lowered, down);
    var rounded := Round(lowered);
    tempo := ClampInt(rounded, 60, 200);
  }

  // ---------------------------------------------------- autocorrelation

  /** Math.min(data.length, sampleRate * 30). */
  function LagDataLength(dataLength: nat, sampleRate: nat): nat
  {
    Min(dataLength, sampleRate * 30)
  }

  /** A positive sample rate makes the lag table non-empty. */
  lemma LagsOrdered(sampleRate: nat)
    requires sampleRate > 0
    ensures MinLag(sampleRate) < MaxLag(sampleRate)
  {
  }

  /**
   * `autocorr`, of length maxLag - minLag: entry k holds the mean product
   * at lag minLag + k when that lag is below the data length, and keeps
   * its initial 0 otherwise.
   */
  function AutocorrTable(data: seq<real>, sampleRate: nat): (t: seq<real>)
    requires sampleRate > 0
    ensures |t| == MaxLag(sampleRate) - MinLag(sampleRate)
  {
    LagsOrdered(sampleRate);
    var minLag, len := MinLag(sampleRate), LagDataLength(|data|, sampleRate);
    seq(MaxLag(sampleRate) - minLag, k requires 0 <= k =>
      if minLag + k < len then MeanProduct(data, len, minLag + k, 1) else 0.0)
  }

  /**
   * Math.max(60, Math.min(200, Math.round(60 * sampleRate / bestLag))).
   * A zero lag divides a positive number by zero; the resulting Infinity
   * is clamped to 200.
   */
  function LagTempo(sampleRate: nat, lag: nat): (t: int)
    ensures 60 <= t <= 200
  {
    if lag == 0 then 200 else ClampInt(Round(60.0 * sampleRate as real / lag as real), 60, 200)
  }

  /**
   * autocorrelationTempo: every lag from minLag below maxLag and the data
   * length, stride 1, written to autocorr[lag - minLag] (always inside the
   * array); then the first strict maximum of the whole table from
   * -Infinity, unmeasured zero entries included.
   */
  method AutocorrelationTempo(data: seq<real>, sampleRate: nat) returns (tempo: int, ghost w: Option<nat>)
    requires sampleRate > 0
    ensures LagOutcome(data, sampleRate, tempo, w)
  {
    var minLag := MinLag(sampleRate);
    var autocorr := FillAutocorrelation(data, sampleRate);
    var bestIndex;
    bestIndex, w := ScanTable(autocorr);
    var bestLag := minLag + bestIndex;
    if bestLag == 0 {
      tempo := 200;
    } else {
      tempo := ClampInt(Round(60.0 * sampleRate as real / bestLag as real), 60, 200);
    }
  }

  /**
   * What autocorrelationTempo returns: the tempo of the lag at the first
   * strict maximum of the table from -Infinity, which always exists.
   */
  ghost predicate LagOutcome(data: seq<real>, sampleRate: nat, tempo: int, w: Option<nat>)
    requires sampleRate > 0
  {
    FirstStrictMax(AutocorrTable(data, sampleRate), NegInfinity, w) &&
    w.Some? && w.value < MaxLag(sampleRate) - MinLag(sampleRate) &&
    tempo == LagTempo(sampleRate, MinLag(sampleRate) + w.value) &&
    60 <= tempo <= 200
  }

  /**
   * The lag loop: `autocorr = new Float32Array(maxLag - minLag)`, then for
   * every lag from minLag below maxLag and the data length the mean
   * product at stride 1, written to autocorr[lag - minLag], an index the
   * array always has.
   */
  method FillAutocorrelation(data: seq<real>, sampleRate: nat) returns (table: seq<real>)
    requires sampleRate > 0
    ensures table == AutocorrTable(data, sampleRate)
  {
    var maxLag := MaxLag(sampleRate);
    var minLag := MinLag(sampleRate);
    LagsOrdered(sampleRate);
    var autocorr := new real[maxLag - minLag](_ => 0.0);
    var dataLength := LagDataLength(|data|, sampleRate);
    var lag := minLag;
    while lag < maxLag && lag < dataLength
      invariant minLag <= lag <= maxLag
      invariant lag == minLag || lag <= dataLength
      invariant forall k :: 0 <= k < autocorr.Length ==>
                  autocorr[k] == if minLag + k < lag then MeanProduct(data, dataLength, minLag + k, 1) else 0.0
    {
      var correlation := MeanProductLoop(data, dataLength, lag, 1);
      autocorr[lag - minLag] := correlation;
      lag := lag + 1;
    }
    table := autocorr[..];
    assert forall k :: 0 <= k < |table| ==> table[k] == AutocorrTable(data, sampleRate)[k];
  }

  /** `maxCorr = -Infinity`, then `if (autocorr[i] > maxCorr)` over the whole table. */
  method ScanTable(table: seq<real>) returns (bestIndex: nat, ghost w: Option<nat>)
    requires |table| > 0
    ensures FirstStrictMax(table, NegInfinity, w)
    ensures w.Some? && bestIndex == w.value < |table|
  {
    var maxCorr := NegInfinity;
    bestIndex := 0;
    w := None;
    var i := 0;
    while i < |table|
      invariant 0 <= i <= |table|
      invariant FirstStrictMax(table[..i], NegInfinity, w)
      invariant w.Some? ==> w.value < i
      invariant maxCorr == BestSoFar(table[..i], NegInfinity, w)
      invariant bestIndex == if w.None? then 0 else w.value
    {
      FirstStrictMaxStep(table[..i], NegInfinity, w, table[i]);
      assert table[..i] + [table[i]] == table[..i + 1];
      if Beats(table[i], maxCorr) {
        maxCorr := Finite(table[i]);
        bestIndex := i;
        w := Some(i);
      }
      i := i + 1;
    }
    assert table[..i] == table;
    NegInfinityAlwaysWins(table, w);
  }

  // ---------------------------------------------------------------- tempo

  /** Math.min(data.length, sampleRate * 45). */
  function AnalysisLength(dataLength: nat, sampleRate: nat): nat
  {
    Min(dataLength, sampleRate * 45)
  }

  /** Which path detectTempo took. */
  datatype TempoRoute = FrameError | EmptyEnvelope | FromHistogram | FromAutocorrelation

  /**
   * What detectTempo does with an onset envelope and the filtered signal:
   * peaks of radius 2 from frame 3 above 1.5 times the mean, with no
   * spacing rule; with at least 8 peaks the intervals are the first 99
   * gaps strictly between 0.3 s and 2.0 s; the histogram path is taken
   * exactly when there are at least 8 peaks and 4 intervals, and gives a
   * tempo in [80, 160]; otherwise the tempo is autocorrelationTempo's on
   * the filtered signal.
   */
  ghost predicate FluxRoute(onset: seq<real>, filtered: seq<real>, sampleRate: nat, tempo: int,
                            fromHistogram: bool, peaks: seq<int>, intervals: seq<real>)
    requires |onset| > 0 && sampleRate > 0
  {
    PeakPicking(onset, 3, 2, Mean(onset) * 1.5, 0, peaks) &&
    (|peaks| >= 8 ==> intervals == Within(Gaps(Times(peaks, HopSize, sampleRate), 100), 0.3, 2.0)) &&
    (fromHistogram <==> |peaks| >= 8 && |intervals| >= 4) &&
    (fromHistogram ==> HistogramOutcome(intervals, tempo)) &&
    (!fromHistogram ==> exists w :: LagOutcome(filtered, sampleRate, tempo, w))
  }

  /** The histogram path's tempo: the folded, rounded 60 / dominant interval, in [80, 160]. */
  ghost predicate HistogramOutcome(intervals: seq<real>, tempo: int)
  {
    |intervals| > 0 && 0.3 < DominantInterval(Sort(intervals)) < 2.0 && 80 <= tempo <= 160 &&
    tempo == Round(Fold(60.0 / DominantInterval(Sort(intervals)), 80.0, 160.0))
  }

  /** The part of detectTempo after the onset envelope. */
  method TempoFromFlux(filtered: seq<real>, sampleRate: nat, onset: seq<real>)
    returns (tempo: int, fromHistogram: bool, ghost peaks: seq<int>, ghost intervals: seq<real>)
    requires |onset| > 0 && sampleRate > 0
    ensures FluxRoute(onset, filtered, sampleRate, tempo, fromHistogram, peaks, intervals)
    ensures 60 <= tempo <= 200
  {
    intervals := [];
    var threshold := Mean(onset) * 1.5;
    var found := PickPeaks(onset, 3, 2, threshold, 0);
    peaks := found;
    if |found| < 8 {
      ghost var w;
      tempo, w := AutocorrelationTempo(filtered, sampleRate);
      return tempo, false, peaks, intervals;
    }
    var kept := CollectIntervals(Times(found, HopSize, sampleRate), 100, 0.3, 2.0);
    intervals := kept;
    if |kept| < 4 {
      ghost var w;
      tempo, w := AutocorrelationTempo(filtered, sampleRate);
      return tempo, false, peaks, intervals;
    }
    tempo := HistogramTempo(kept);
    fromHistogram := true;
  }

  /** Without a spacing rule every peak of the scanned range is kept. */
  lemma EveryPeakKept(onset: seq<real>, peaks: seq<int>, i: int)
    requires |onset| > 0 && PeakPicking(onset, 3, 2, Mean(onset) * 1.5, 0, peaks)
    requires 3 <= i < |onset| - 3 && IsPeak(onset, i, 2, Mean(onset) * 1.5)
    ensures i in peaks
  {
    NoSpacingKeepsAll(onset, 3, 2, Mean(onset) * 1.5, peaks, i);
  }

  /**
   * `Math.floor((analysisLength - windowSize) / hopSize)`, the number of
   * windows, for samples that fill at least one window; with fewer the
   * count is negative, which the samples test in DetectTempo stands for.
   */
  function FrameCount(analysisLength: nat): (n: nat)
    requires analysisLength >= WindowSize
    ensures n * HopSize + WindowSize <= analysisLength
    ensures n == 0 <==> analysisLength < WindowSize + HopSize
  {
    (analysisLength - WindowSize) / HopSize
  }

  /**
   * A tempo detectTempo reports: at least 2560 samples were analysed, and
   * the envelope of its (al - 2048) / 512 windows and the filtered signal
   * lead to it as FluxRoute says.
   */
  ghost predicate Detected(data: seq<real>, sampleRate: nat, spectrum: nat -> seq<real>, tempo: int,
                           route: TempoRoute, peaks: seq<int>, intervals: seq<real>)
    requires FluxSpectra(spectrum)
  {
    var al := AnalysisLength(|data|, sampleRate);
    sampleRate > 0 && al >= WindowSize + HopSize &&
    (route == FromHistogram || route == FromAutocorrelation) &&
    FluxRoute(Flux(spectrum, FrameCount(al)), HighPass(data, 0.97, al), sampleRate,
              tempo, route == FromHistogram, peaks, intervals)
  }

  /**
   * detectTempo. None stands for the two throws of the source: the
   * RangeError of `new Float32Array(numWindows)` when fewer than 2048
   * samples are analysed, and the TypeError of `reduce` on an empty
   * envelope when fewer than 2560 are.
   */
  method DetectTempo(data: seq<real>, sampleRate: nat, spectrum: nat -> seq<real>)
    returns (tempo: Option<int>, ghost route: TempoRoute, ghost peaks: seq<int>, ghost intervals: seq<real>)
    requires FluxSpectra(spectrum)
    ensures var al := AnalysisLength(|data|, sampleRate);
            (route == FrameError <==> al < WindowSize) &&
            (route == EmptyEnvelope <==> WindowSize <= al < WindowSize + HopSize) &&
            (tempo.None? <==> al < WindowSize + HopSize)
    ensures tempo.Some? ==> 60 <= tempo.value <= 200
    ensures tempo.Some? ==> Detected(data, sampleRate, spectrum, tempo.value, route, peaks, intervals)
  {
    peaks, intervals := [], [];
    var analysisLength := AnalysisLength(|data|, sampleRate);
    var filtered := HighPassFilter(data, 0.97, analysisLength);
    if analysisLength < WindowSize {
      return None, FrameError, peaks, intervals;
    }
    var numWindows := FrameCount(analysisLength);
    var onset := SpectralFlux(numWindows, spectrum);
    if |onset| == 0 {
      return None, EmptyEnvelope, peaks, intervals;
    }
    var t, fromHistogram;
    t, fromHistogram, peaks, intervals := TempoFromFlux(filtered, sampleRate, onset);
    route := if fromHistogram then FromHistogram else FromAutocorrelation;
    assert Detected(data, sampleRate, spectrum, t, route, peaks, intervals);
    tempo := Some(t);
  }
}
