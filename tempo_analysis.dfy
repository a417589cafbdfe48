// The beat-based tempo estimator of src/hooks/audioAnalysis/tempoAnalysis.ts:
// a 0.97 high-pass over the first 30 seconds, RMS energy in 50 ms windows
// with 50% overlap, beats where the energy beats mean + 0.3 std and both
// neighbours, the median of the first inter-beat intervals doubled or
// halved into range; and its autocorrelation fallback.

module TempoAnalysis {
  import opened Numeric
  import opened Sorting
  import opened Wrappers
  import opened Argmax
  import opened Peaks
  import opened Folding
  import opened LagScan
  import opened AudioUtils

  /** The high-pass coefficient. */
  const Alpha: real := 0.97

  // ------------------------------------------------------------ the energy

  /** Math.min(data.length, sampleRate * 30). */
  function AnalysisLength(dataLength: nat, sampleRate: nat): nat
  {
    Min(dataLength, sampleRate * 30)
  }

  /** Math.floor(sampleRate * 0.05): 50 ms of samples. */
  function WindowSize(sampleRate: nat): nat
  {
    Floor(sampleRate as real * 0.05)
  }

  /** Math.floor(windowSize / 2). */
  function HopSize(sampleRate: nat): nat
  {
    WindowSize(sampleRate) / 2
  }

  /** At 40 Hz or more the window holds at least 2 samples and the hop is at least 1. */
  lemma WindowAndHopPositive(sampleRate: nat)
    requires sampleRate >= 40
    ensures WindowSize(sampleRate) >= 2 && HopSize(sampleRate) >= 1
  {
  }

  /** `for (let i = 0; i < analysisLength - windowSize; i += hopSize)`: how many windows run. */
  function WindowCount(analysisLength: nat, windowSize: nat, hopSize: nat): nat
    requires hopSize > 0
  {
    CountFrom(hopSize, 0, analysisLength as int - windowSize)
  }

  /** The samples of window k: a full window inside the analysed samples. */
  function WindowAt(filtered: seq<real>, windowSize: nat, hopSize: nat, k: nat): (w: seq<real>)
    requires hopSize > 0 && k < WindowCount(|filtered|, windowSize, hopSize)
    ensures |w| == windowSize
  {
    CountFromBound(hopSize, 0, |filtered| as int - windowSize, k);
    filtered[k * hopSize..k * hopSize + windowSize]
  }

  /** Math.sqrt(energy / windowSize) with energy the sum of squares: the window's RMS. */
  function Rms(window: seq<real>, sqrt: real -> real): real
    requires |window| > 0
  {
    sqrt(SumSq(window) / |window| as real)
  }

  /** The energy of every window, in order. */
  function Energies(filtered: seq<real>, windowSize: nat, hopSize: nat, sqrt: real -> real): (e: seq<real>)
    requires windowSize > 0 && hopSize > 0
    ensures |e| == WindowCount(|filtered|, windowSize, hopSize)
  {
    seq(WindowCount(|filtered|, windowSize, hopSize),
        k requires 0 <= k < WindowCount(|filtered|, windowSize, hopSize) => Rms(WindowAt(filtered, windowSize, hopSize, k), sqrt))
  }

  /** Every RMS energy is non-negative. */
  lemma EnergiesNonNeg(filtered: seq<real>, windowSize: nat, hopSize: nat, sqrt: real -> real)
    requires windowSize > 0 && hopSize > 0 && SqrtLike(sqrt)
    ensures AllNonNeg(Energies(filtered, windowSize, hopSize, sqrt))
  {
    var e := Energies(filtered, windowSize, hopSize, sqrt);
    forall k | 0 <= k < |e| ensures e[k] >= 0.0 {
      var w := WindowAt(filtered, windowSize, hopSize, k);
      SumSqNonNeg(w);
      QuotientNonNeg(SumSq(w), |w| as real);
      SqrtNonNeg(sqrt, SumSq(w) / |w| as real);
    }
  }

  /** The index of every window, 0, 1, ..., n - 1. */
  function WindowIndices(n: nat): (r: seq<int>)
    ensures |r| == n && forall k :: 0 <= k < n ==> r[k] == k
  {
    seq(n, k requires 0 <= k < n => k)
  }

  /** The timestamps i / sampleRate of the windows are strictly increasing. */
  lemma TimestampsIncreasing(n: nat, hopSize: nat, sampleRate: nat)
    requires hopSize > 0 && sampleRate > 0
    ensures forall j, k :: 0 <= j < k < n ==>
              Times(WindowIndices(n), hopSize, sampleRate)[j] < Times(WindowIndices(n), hopSize, sampleRate)[k]
  {
    TimesIncreasing(WindowIndices(n), hopSize, sampleRate);
  }

  /** The inner `for (let j = 0; j < windowSize; j++) energy += x * x`. */
  method WindowEnergy(filtered: seq<real>, start: nat, windowSize: nat) returns (energy: real)
    requires start + windowSize <= |filtered|
    ensures energy == SumSq(filtered[start..start + windowSize])
  {
    energy := 0.0;
    var j := 0;
    while j < windowSize
      invariant 0 <= j <= windowSize
      invariant energy == SumSq(filtered[start..start + j])
    {
      assert filtered[start..start + j + 1][..j] == filtered[start..start + j];
      energy := energy + filtered[start + j] * filtered[start + j];
      j := j + 1;
    }
  }

  /** The window loop pushing one RMS value per window. */
  method EnergyEnvelope(filtered: seq<real>, windowSize: nat, hopSize: nat, sqrt: real -> real)
    returns (energies: seq<real>)
    requires windowSize > 0 && hopSize > 0
    ensures energies == Energies(filtered, windowSize, hopSize, sqrt)
  {
    energies := [];
    var limit: int := |filtered| as int - windowSize;
    var i := 0;
    while i < limit
      invariant i == |energies| * hopSize
      invariant |energies| + CountFrom(hopSize, i, limit) == WindowCount(|filtered|, windowSize, hopSize)
      invariant forall k :: 0 <= k < |energies| ==> energies[k] == Rms(WindowAt(filtered, windowSize, hopSize, k), sqrt)
      decreases limit - i
    {
      var energy := WindowEnergy(filtered, i, windowSize);
      energy := sqrt(energy / windowSize as real);
      assert filtered[i..i + windowSize] == WindowAt(filtered, windowSize, hopSize, |energies|);
      energies := energies + [energy];
      i := i + hopSize;
    }
  }

  /** meanEnergy + energyStd * 0.3, with the population standard deviation. */
  function Threshold(energies: seq<real>, sqrt: real -> real): real
    requires |energies| > 0
  {
    Mean(energies) + sqrt(Variance(energies, Mean(energies))) * 0.3
  }

  /** The threshold is never below the mean. */
  lemma ThresholdAtLeastMean(energies: seq<real>, sqrt: real -> real)
    requires |energies| > 0 && SqrtLike(sqrt)
    ensures Threshold(energies, sqrt) >= Mean(energies)
  {
    var m := Mean(energies);
    SumSqDevNonNeg(energies, m);
    QuotientNonNeg(SumSqDev(energies, m), |energies| as real);
    SqrtNonNeg(sqrt, Variance(energies, m));
  }

  /**
   * Beats are exactly the windows in [1, n - 1) whose energy is above the
   * threshold and strictly above both neighbours; there is no spacing rule.
   */
  lemma BeatsAreExactlyPeaks(energies: seq<real>, thr: real, beats: seq<int>, i: int)
    requires PeakPicking(energies, 1, 1, thr, 0, beats)
    ensures i in beats <==> 1 <= i < |energies| - 1 && IsPeak(energies, i, 1, thr)
    ensures i in beats ==> energies[i] > thr && energies[i] > energies[i - 1] && energies[i] > energies[i + 1]
  {
    if 1 <= i < |energies| - 1 && IsPeak(energies, i, 1, thr) {
      NoSpacingKeepsAll(energies, 1, 1, thr, beats, i);
    }
    if i in beats {
      var j :| 0 <= j < |beats| && beats[j] == i;
      assert IsPeak(energies, i, 1, thr);
      assert i - 1 != i && i + 1 != i;
    }
  }

  // ---------------------------------------------------------- the median

  /**
   * The tempo-multiple if-chain (at most two doublings below 80, then at
   * most two halvings above 180) followed by the clamp to [70, 180].
   * Halving an odd value leaves a fractional tempo.
   */
  method AdjustMultiples(initial: int) returns (finalBpm: real)
    ensures 70.0 <= finalBpm <= 180.0
    ensures 80 <= initial <= 180 ==> finalBpm == initial as real
    ensures 40 <= initial < 80 ==> finalBpm == 2.0 * initial as real
    ensures 20 <= initial < 40 ==> finalBpm == 4.0 * initial as real
    ensures 180 < initial <= 360 ==> finalBpm == initial as real / 2.0
    ensures 360 < initial <= 720 ==> finalBpm == initial as real / 4.0
    ensures initial < 18 ==> finalBpm == 70.0
    ensures initial > 720 ==> finalBpm == 180.0
  {
    var bpm := initial as real;
    if bpm < 80.0 {
      bpm := bpm * 2.0;
    }
    if bpm < 80.0 {
      bpm := bpm * 2.0;
    }
    if bpm > 180.0 {
      bpm := bpm / 2.0;
    }
    if bpm > 180.0 {
      bpm := bpm / 2.0;
    }
    finalBpm := Clamp(bpm, 70.0, 180.0);
  }

  /** The median interval lies in (0.25, 2.0), so round(60 / median) lies in [30, 240]. */
  lemma MedianBpmRange(median: real)
    requires 0.25 < median < 2.0
    ensures 30 <= Round(60.0 / median) <= 240
  {
    var b := 60.0 / median;
    assert b * median == 60.0;
    assert 30.0 < b < 240.0;
  }

  /**
   * For a median tempo in [30, 240] the result is a whole number unless
   * the estimate was halved from an odd value, when it ends in .5.
   */
  lemma FractionalOnlyAfterHalving(initial: int, finalBpm: real)
    requires 30 <= initial <= 240
    requires 80 <= initial <= 180 ==> finalBpm == initial as real
    requires 40 <= initial < 80 ==> finalBpm == 2.0 * initial as real
    requires 20 <= initial < 40 ==> finalBpm == 4.0 * initial as real
    requires 180 < initial <= 360 ==> finalBpm == initial as real / 2.0
    ensures 80.0 <= finalBpm <= 180.0
    ensures finalBpm.Floor as real == finalBpm <==> !(initial > 180 && initial % 2 == 1)
    ensures finalBpm.Floor as real != finalBpm ==> finalBpm - finalBpm.Floor as real == 0.5
  {
    if initial > 180 {
      var h := initial / 2;
      if initial % 2 == 1 {
        assert finalBpm == h as real + 0.5;
        assert finalBpm.Floor == h;
      } else {
        assert finalBpm == h as real;
      }
    }
  }

  /** The median interval's tempo, adjusted for multiples and clamped. */
  method MedianTempo(intervals: seq<real>) returns (tempo: real)
    requires |intervals| > 0 && forall k :: 0 <= k < |intervals| ==> 0.25 < intervals[k] < 2.0
    ensures 0.25 < Median(intervals) < 2.0 && 30 <= Round(60.0 / Median(intervals)) <= 240
    ensures MedianAdjusted(Round(60.0 / Median(intervals)), tempo)
  {
    MedianWithin(intervals, 0.25, 2.0);
    var medianInterval := Median(intervals);
    MedianBpmRange(medianInterval);
    var bpm := Round(60.0 / medianInterval);
    tempo := AdjustMultiples(bpm);
    FractionalOnlyAfterHalving(bpm, tempo);
  }

  /**
   * What the if-chain and clamp make of a median tempo in [30, 240]:
   * unchanged in [80, 180], doubled (or doubled twice) below, halved
   * above; always in [80, 180], fractional only after halving an odd value.
   */
  ghost predicate MedianAdjusted(initial: int, tempo: real)
  {
    80.0 <= tempo <= 180.0 &&
    (80 <= initial <= 180 ==> tempo == initial as real) &&
    (40 <= initial < 80 ==> tempo == 2.0 * initial as real) &&
    (initial < 40 ==> tempo == 4.0 * initial as real) &&
    (initial > 180 ==> tempo == initial as real / 2.0) &&
    (tempo.Floor as real == tempo <==> !(initial > 180 && initial % 2 == 1))
  }

  // --------------------------------------------------------- the fallback

  /** Math.min(data.length, sampleRate * 20). */
  function FallbackLength(dataLength: nat, sampleRate: nat): nat
  {
    Min(dataLength, sampleRate * 20)
  }

  /** The lags the fallback tries: every 8th from minLag, below maxLag and the analysis length. */
  function FallbackLags(dataLength: nat, sampleRate: nat): seq<nat>
  {
    LagsFrom(8, MinLag(sampleRate), LagLimit(MaxLag(sampleRate), FallbackLength(dataLength, sampleRate)))
  }

  /**
   * bestLag is what the scan keeps: the first lag with the greatest mean
   * product over every 32nd sample, if that beats -1; else minLag.
   */
  ghost predicate FallbackLag(data: seq<real>, sampleRate: nat, bestLag: nat)
  {
    var lags := FallbackLags(|data|, sampleRate);
    var len := FallbackLength(|data|, sampleRate);
    len <= |data| &&
    exists w: Option<nat> :: (w.Some? ==> w.value < |lags|) &&
      FirstStrictMax(LagScores(data, len, 32, lags), Finite(-1.0), w) &&
      bestLag == ChosenLag(MinLag(sampleRate), lags, w)
  }

  /** 60 sr / lag exceeds 40 for every lag the fallback can report. */
  lemma FallbackRatio(sampleRate: nat, lag: nat)
    requires sampleRate > 0 && lag >= 1 && (lag == MinLag(sampleRate) || lag < MaxLag(sampleRate))
    ensures LagBpm(sampleRate, lag) > 40.0
  {
    var l, s := lag as real, sampleRate as real;
    assert l < 1.5 * s;
    QuotientAbove(60.0 * s, l, 40.0);
  }

  /**
   * fallbackTempoDetection: the autocorrelation scan, then
   * round(60 sr / bestLag) doubled while below 70 and halved while above
   * 180, then clamped. The folding lands in [70, 180] on its own, so the
   * clamp never acts. Below 4 Hz the shortest lag is 0 and the halving
   * loop does not end.
   */
  method FallbackTempoDetection(data: seq<real>, sampleRate: nat) returns (tempo: real, ghost bestLag: nat)
    requires sampleRate >= 4
    ensures FallbackLag(data, sampleRate, bestLag) && bestLag >= 1
    ensures Round(LagBpm(sampleRate, bestLag)) >= 40
    ensures tempo == Fold(Round(LagBpm(sampleRate, bestLag)) as real, 70.0, 180.0)
    ensures 70.0 <= tempo <= 180.0
    ensures OctaveOf(tempo, Round(LagBpm(sampleRate, bestLag)) as real)
  {
    var lag := FallbackLagScan(data, sampleRate);
    bestLag := lag;
    FallbackRatio(sampleRate, lag);
    var bpm := Round(LagBpm(sampleRate, lag));
    tempo := FoldFallback(bpm);
  }

  /** The lag loop of the fallback, with the initial best -1 and bestLag = minLag. */
  method FallbackLagScan(data: seq<real>, sampleRate: nat) returns (bestLag: nat)
    requires sampleRate >= 4
    ensures FallbackLag(data, sampleRate, bestLag) && bestLag >= 1
    ensures bestLag == MinLag(sampleRate) || bestLag < MaxLag(sampleRate)
  {
    var maxLag := MaxLag(sampleRate);
    var minLag := MinLag(sampleRate);
    var analysisLength := FallbackLength(|data|, sampleRate);
    ghost var w;
    bestLag, w := BestLag(data, analysisLength, minLag, maxLag, 8, 32, Finite(-1.0));
    assert FallbackLag(data, sampleRate, bestLag);
  }

  /**
   * `while (bpm < 70) bpm *= 2; while (bpm > 180) bpm /= 2;` then the clamp
   * to [70, 180], which never acts: the reference fold into [70, 180].
   */
  method FoldFallback(bpm: int) returns (tempo: real)
    requires bpm > 0
    ensures tempo == Fold(bpm as real, 70.0, 180.0)
    ensures 70.0 <= tempo <= 180.0
    ensures OctaveOf(tempo, bpm as real)
    ensures 70 <= bpm <= 180 ==> tempo == bpm as real
  {
    var up, ku := FoldUp(bpm as real, 70.0);
    var down, kd := FoldDown(up, 180.0);
    Folded(bpm as real, 70.0, 180.0, up, ku, down, kd);
    tempo := Clamp(down, 70.0, 180.0);
    assert tempo == down;
  }

  // ---------------------------------------------------------- detection

  /** How detectTempoFromBeats ends. */
  datatype BeatRoute =
    | NoEnergy      // no window ran: the mean's reduce throws
    | FewBeats      // fewer than 8 beats: the fallback
    | FewIntervals  // fewer than 4 usable intervals: the fallback
    | FromMedian    // the median interval

  /**
   * The facts about one run once the energies exist: the beats are picked
   * from them, the intervals are the usable gaps of the first 50 beat
   * times, the route is what their counts select, and the tempo is the
   * fallback's or the adjusted median tempo accordingly.
   */
  ghost predicate BeatOutcome(data: seq<real>, sampleRate: nat, energies: seq<real>, sqrt: real -> real,
                              tempo: real, route: BeatRoute, beats: seq<int>, intervals: seq<real>)
    requires sampleRate > 0 && |energies| > 0
  {
    PeakPicking(energies, 1, 1, Threshold(energies, sqrt), 0, beats) &&
    (|beats| >= 8 ==> intervals == Within(Gaps(Times(beats, HopSize(sampleRate), sampleRate), 50), 0.25, 2.0)) &&
    (route == FewBeats <==> |beats| < 8) &&
    (route == FewIntervals <==> |beats| >= 8 && |intervals| < 4) &&
    (route == FewBeats || route == FewIntervals || route == FromMedian) &&
    (route != FromMedian ==> exists bestLag: nat :: FallbackLag(data, sampleRate, bestLag) && 70.0 <= tempo <= 180.0 &&
                               bestLag >= 1 && Round(LagBpm(sampleRate, bestLag)) >= 40 &&
                               tempo == Fold(Round(LagBpm(sampleRate, bestLag)) as real, 70.0, 180.0) &&
                               OctaveOf(tempo, Round(LagBpm(sampleRate, bestLag)) as real)) &&
    (route == FromMedian ==> |intervals| > 0 && 0.25 < Median(intervals) < 2.0 &&
                             MedianAdjusted(Round(60.0 / Median(intervals)), tempo))
  }

  /** The energies a run computes from the high-passed first 30 seconds. */
  function RunEnergies(data: seq<real>, sampleRate: nat, sqrt: real -> real): seq<real>
    requires sampleRate >= 40
  {
    WindowAndHopPositive(sampleRate);
    Energies(HighPass(data, Alpha, AnalysisLength(|data|, sampleRate)), WindowSize(sampleRate), HopSize(sampleRate), sqrt)
  }

  /**
   * The beat route after the energies: beats, intervals, then the median
   * tempo or the fallback.
   */
  method TempoFromEnergies(data: seq<real>, sampleRate: nat, energies: seq<real>, sqrt: real -> real)
    returns (tempo: real, ghost route: BeatRoute, ghost beats: seq<int>, ghost intervals: seq<real>)
    requires sampleRate >= 40 && |energies| > 0
    ensures BeatOutcome(data, sampleRate, energies, sqrt, tempo, route, beats, intervals)
  {
    WindowAndHopPositive(sampleRate);
    var threshold := Threshold(energies, sqrt);
    var beatIndices := PickPeaks(energies, 1, 1, threshold, 0);
    beats := beatIndices;
    intervals := [];
    if |beatIndices| < 8 {
      ghost var bestLag;
      tempo, bestLag := FallbackTempoDetection(data, sampleRate);
      route := FewBeats;
      return;
    }
    var beatTimes := Times(beatIndices, HopSize(sampleRate), sampleRate);
    var found := CollectIntervals(beatTimes, 50, 0.25, 2.0);
    intervals := found;
    if |found| < 4 {
      ghost var bestLag;
      tempo, bestLag := FallbackTempoDetection(data, sampleRate);
      route := FewIntervals;
      return;
    }
    tempo := MedianTempo(found);
    route := FromMedian;
  }

  /**
   * detectTempoFromBeats. `sqrt` is Math.sqrt. None stands for the
   * TypeError of `reduce` on an empty energy array (at most one window's
   * worth of samples analysed). A sample rate below 40 Hz makes the hop
   * 0, and the window loop then does not end.
   */
  method DetectTempoFromBeats(data: seq<real>, sampleRate: nat, sqrt: real -> real)
    returns (tempo: Option<real>, ghost route: BeatRoute, ghost beats: seq<int>, ghost intervals: seq<real>)
    requires sampleRate >= 40 && SqrtLike(sqrt)
    ensures route == NoEnergy <==> |RunEnergies(data, sampleRate, sqrt)| == 0
    ensures tempo.None? <==> route == NoEnergy
    ensures tempo.Some? ==> 70.0 <= tempo.value <= 180.0
    ensures tempo.Some? ==>
              BeatOutcome(data, sampleRate, RunEnergies(data, sampleRate, sqrt), sqrt, tempo.value, route, beats, intervals)
  {
    WindowAndHopPositive(sampleRate);
    var analysisLength := AnalysisLength(|data|, sampleRate);
    var filteredData := HighPassFilter(data, Alpha, analysisLength);
    var energies := EnergyEnvelope(filteredData, WindowSize(sampleRate), HopSize(sampleRate), sqrt);
    if |energies| == 0 {
      tempo, route, beats, intervals := None, NoEnergy, [], [];
      return;
    }
    var t;
    t, route, beats, intervals := TempoFromEnergies(data, sampleRate, energies, sqrt);
    assert BeatOutcome(data, sampleRate, RunEnergies(data, sampleRate, sqrt), sqrt, t, route, beats, intervals);
    tempo := Some(t);
  }

  /** No energy window runs exactly when at most one window's worth of samples is analysed. */
  lemma NoEnergyWhenShort(data: seq<real>, sampleRate: nat, sqrt: real -> real)
    requires sampleRate >= 40
    ensures |RunEnergies(data, sampleRate, sqrt)| == 0 <==> AnalysisLength(|data|, sampleRate) <= WindowSize(sampleRate)
  {
  }
}
