// The post-processing of src/hooks/audioAnalysis/meydaProcessor.ts over the
// features Meyda extracts from 512-sample frames: an onset envelope from
// spectral-centroid and RMS changes, radius-2 peak picking, the median
// interval's tempo; and the averaged chroma scanned against the raw
// Krumhansl-Schmuckler templates.

module MeydaProcessor {
  import opened Numeric
  import opened Sorting
  import opened Wrappers
  import opened Argmax
  import opened Peaks
  import opened Chroma
  import opened KeyProfiles
  import opened Averaging

  const BufferSize: nat := 512
  /** The tempo reported when too few peaks or intervals are found, or extraction throws. */
  const DefaultTempo: real := 120.0

  /** Math.floor(audioData.length / bufferSize), at most `limit` of them processed. */
  function FramesProcessed(dataLength: nat, limit: nat): nat
  {
    Min(dataLength / BufferSize, limit)
  }

  // ------------------------------------------------------------- onsets

  /** The two features the tempo loop extracts from a frame. */
  datatype Features = Features(centroid: real, rms: real)

  /** JavaScript truthiness of an extracted number (NaN is not modelled). */
  predicate Truthy(x: real) { x != 0.0 }

  predicate Usable(f: Features) { Truthy(f.centroid) && Truthy(f.rms) }

  /** The envelope so far and the previous centroid and RMS. */
  datatype OnsetState = OnsetState(onsets: seq<real>, prevCentroid: real, prevRms: real)

  /**
   * One frame: a usable frame pushes |Δcentroid| + 1000 |Δrms| and becomes
   * the previous frame; any other frame pushes 0 and changes nothing else.
   */
  function OnsetStep(st: OnsetState, f: Features): OnsetState
  {
    if Usable(f) then
      OnsetState(st.onsets + [Abs(f.centroid - st.prevCentroid) + Abs(f.rms - st.prevRms) * 1000.0], f.centroid, f.rms)
    else
      OnsetState(st.onsets + [0.0], st.prevCentroid, st.prevRms)
  }

  /** The state after the given frames, from previous values 0 and 0. */
  function Onsets(frames: seq<Features>): (st: OnsetState)
    ensures |st.onsets| == |frames|
  {
    if |frames| == 0 then OnsetState([], 0.0, 0.0)
    else OnsetStep(Onsets(frames[..|frames| - 1]), frames[|frames| - 1])
  }

  /** The latest usable frame before index n, if any. */
  function LastUsable(frames: seq<Features>, n: nat): (r: Option<nat>)
    requires n <= |frames|
    ensures r.Some? ==> r.value < n && Usable(frames[r.value])
    ensures r.Some? ==> forall j :: r.value < j < n ==> !Usable(frames[j])
    ensures r.None? ==> forall j :: 0 <= j < n ==> !Usable(frames[j])
  {
    if n == 0 then None
    else if Usable(frames[n - 1]) then Some(n - 1)
    else LastUsable(frames, n - 1)
  }

  /** The previous centroid and RMS seen by frame n: those of the latest usable frame, or 0. */
  function PrevCentroid(frames: seq<Features>, n: nat): real
    requires n <= |frames|
  {
    var l := LastUsable(frames, n);
    if l.None? then 0.0 else frames[l.value].centroid
  }

  function PrevRms(frames: seq<Features>, n: nat): real
    requires n <= |frames|
  {
    var l := LastUsable(frames, n);
    if l.None? then 0.0 else frames[l.value].rms
  }

  /** Frame i's onset as the envelope defines it, frame by frame. */
  function ReferenceOnset(frames: seq<Features>, i: nat): real
    requires i < |frames|
  {
    if Usable(frames[i]) then Abs(frames[i].centroid - PrevCentroid(frames, i)) + Abs(frames[i].rms - PrevRms(frames, i)) * 1000.0
    else 0.0
  }

  /**
   * The envelope entry by entry: frame i's onset compares it with the
   * latest usable frame before it (or with 0), and is 0 for an unusable
   * frame. The previous values are only ever those of usable frames.
   */
  lemma {:induction false} OnsetsCharacterized(frames: seq<Features>)
    ensures Onsets(frames).prevCentroid == PrevCentroid(frames, |frames|)
    ensures Onsets(frames).prevRms == PrevRms(frames, |frames|)
    ensures forall i :: 0 <= i < |frames| ==> Onsets(frames).onsets[i] == ReferenceOnset(frames, i)
  {
    if |frames| > 0 {
      var p := frames[..|frames| - 1];
      OnsetsCharacterized(p);
      PrefixPrev(frames, |p|);
      forall i | 0 <= i < |p| ensures Onsets(frames).onsets[i] == ReferenceOnset(frames, i) {
        PrefixPrev(frames, i);
        assert Onsets(frames).onsets[i] == Onsets(p).onsets[i];
      }
    }
  }

  /** The previous values seen by frame n do not depend on the last frame. */
  lemma PrefixPrev(frames: seq<Features>, n: nat)
    requires n < |frames|
    ensures PrevCentroid(frames[..|frames| - 1], n) == PrevCentroid(frames, n)
    ensures PrevRms(frames[..|frames| - 1], n) == PrevRms(frames, n)
    ensures n < |frames| - 1 ==> ReferenceOnset(frames[..|frames| - 1], n) == ReferenceOnset(frames, n)
  {
    PrefixLastUsable(frames, n);
  }

  /** LastUsable of a prefix only looks at the prefix. */
  lemma {:induction false} PrefixLastUsable(frames: seq<Features>, n: nat)
    requires n < |frames|
    ensures LastUsable(frames[..|frames| - 1], n) == LastUsable(frames, n)
  {
    if n > 0 {
      PrefixLastUsable(frames, n - 1);
    }
  }

  /** Every onset value is non-negative. */
  lemma {:induction false} OnsetsNonNeg(frames: seq<Features>)
    ensures AllNonNeg(Onsets(frames).onsets)
  {
    if |frames| > 0 {
      OnsetsNonNeg(frames[..|frames| - 1]);
    }
  }

  /** The frames as extracted, when none of them threw. */
  function FramesOf(extract: nat -> Option<Features>, n: nat): (frames: seq<Features>)
    requires forall i :: 0 <= i < n ==> extract(i).Some?
    ensures |frames| == n && forall i :: 0 <= i < n ==> frames[i] == extract(i).value
  {
    seq(n, i requires 0 <= i < n => extract(i).value)
  }

  /**
   * The frame loop: `extract(i)` is Meyda.extract's centroid and RMS for
   * frame i, None when it throws, which ends the tempo detection.
   */
  method OnsetStrength(extract: nat -> Option<Features>, n: nat) returns (onsets: Option<seq<real>>)
    ensures onsets.None? <==> exists i :: 0 <= i < n && extract(i).None?
    ensures onsets.Some? ==> onsets.value == Onsets(FramesOf(extract, n)).onsets
  {
    var strength: seq<real> := [];
    var prevSpectralCentroid := 0.0;
    var prevRms := 0.0;
    ghost var frames: seq<Features> := [];
    var i := 0;
    while i < n
      invariant 0 <= i <= n && |frames| == i
      invariant forall j :: 0 <= j < i ==> extract(j) == Some(frames[j])
      invariant Onsets(frames) == OnsetState(strength, prevSpectralCentroid, prevRms)
    {
      var features := extract(i);
      if features.None? {
        return None;
      }
      var f := features.value;
      assert (frames + [f])[..i] == frames;
      if f.centroid != 0.0 && f.rms != 0.0 {
        var spectralChange := Abs(f.centroid - prevSpectralCentroid);
        var rmsChange := Abs(f.rms - prevRms);
        strength := strength + [spectralChange + rmsChange * 1000.0];
        prevSpectralCentroid, prevRms := f.centroid, f.rms;
      } else {
        strength := strength + [0.0];
      }
      frames := frames + [f];
      i := i + 1;
    }
    assert frames == FramesOf(extract, n);
    onsets := Some(strength);
  }

  // --------------------------------------------------------------- tempo

  /**
   * The mean onset times 1.5. For an empty envelope the source divides 0
   * by 0; no index is scanned then, so the value does not matter.
   */
  function OnsetThreshold(onsets: seq<real>): real
  {
    if |onsets| == 0 then 0.0 else Mean(onsets) * 1.5
  }

  /**
   * `if (bpm < 80) bpm *= 2; if (bpm > 160) bpm /= 2; if (bpm < 80) bpm *= 2;`
   * then the clamp to [70, 180].
   */
  method AdjustTempo(initial: int) returns (finalBpm: real)
    ensures 70.0 <= finalBpm <= 180.0
    ensures 80 <= initial <= 160 ==> finalBpm == initial as real
    ensures 40 <= initial < 80 ==> finalBpm == 2.0 * initial as real
    ensures 18 <= initial < 40 ==> finalBpm == 4.0 * initial as real
    ensures 160 < initial <= 360 ==> finalBpm == initial as real / 2.0
    ensures initial > 360 ==> finalBpm == 180.0
    ensures initial < 18 ==> finalBpm == 70.0
  {
    var bpm := initial as real;
    if bpm < 80.0 {
      bpm := bpm * 2.0;
    }
    if bpm > 160.0 {
      bpm := bpm / 2.0;
    }
    if bpm < 80.0 {
      bpm := bpm * 2.0;
    }
    finalBpm := Clamp(bpm, 70.0, 180.0);
  }

  /**
   * What the chain and clamp make of a median tempo in [30, 200]: within
   * [80, 160], and fractional (ending in .5) exactly when an odd value
   * above 160 was halved.
   */
  ghost predicate MedianAdjusted(initial: int, tempo: real)
  {
    80.0 <= tempo <= 160.0 &&
    (80 <= initial <= 160 ==> tempo == initial as real) &&
    (40 <= initial < 80 ==> tempo == 2.0 * initial as real) &&
    (initial < 40 ==> tempo == 4.0 * initial as real) &&
    (initial > 160 ==> tempo == initial as real / 2.0) &&
    (tempo.Floor as real == tempo <==> !(initial > 160 && initial % 2 == 1))
  }

  /** The median interval lies in (0.3, 2.0), so round(60 / median) lies in [30, 200]. */
  lemma MedianBpmRange(median: real)
    requires 0.3 < median < 2.0
    ensures 30 <= Round(60.0 / median) <= 200
  {
    var b := 60.0 / median;
    assert b * median == 60.0;
    if b <= 30.0 {
      MulMono(b, 30.0, median);
    }
    if b >= 200.0 {
      MulMono(200.0, b, median);
    }
  }

  lemma HalvedOdd(initial: int, tempo: real)
    requires initial > 160 && tempo == initial as real / 2.0
    ensures tempo.Floor as real == tempo <==> initial % 2 == 0
  {
    var h := initial / 2;
    if initial % 2 == 1 {
      assert tempo == h as real + 0.5;
      assert tempo.Floor == h;
    } else {
      assert tempo == h as real;
    }
  }

  /** The chain's results for a rounded median tempo in [30, 200]. */
  lemma ChainResult(initial: int, tempo: real)
    requires 30 <= initial <= 200
    requires 80 <= initial <= 160 ==> tempo == initial as real
    requires 40 <= initial < 80 ==> tempo == 2.0 * initial as real
    requires 18 <= initial < 40 ==> tempo == 4.0 * initial as real
    requires 160 < initial <= 360 ==> tempo == initial as real / 2.0
    ensures MedianAdjusted(initial, tempo)
  {
    if initial > 160 {
      HalvedOdd(initial, tempo);
    } else if initial >= 80 {
      assert tempo.Floor == initial;
    } else if initial >= 40 {
      assert tempo == (2 * initial) as real;
    } else {
      assert tempo == (4 * initial) as real;
    }
  }

  /** The median interval's tempo. */
  method MedianTempo(intervals: seq<real>) returns (tempo: real)
    requires |intervals| > 0 && forall k :: 0 <= k < |intervals| ==> 0.3 < intervals[k] < 2.0
    ensures 0.3 < Median(intervals) < 2.0
    ensures MedianAdjusted(Round(60.0 / Median(intervals)), tempo)
  {
    MedianWithin(intervals, 0.3, 2.0);
    var medianInterval := Median(intervals);
    MedianBpmRange(medianInterval);
    var bpm := Round(60.0 / medianInterval);
    tempo := AdjustTempo(bpm);
    ChainResult(bpm, tempo);
  }

  datatype TempoRoute = ExtractError | FewPeaks | FewIntervals | FromMedian

  /**
   * The facts about a run whose frames all extracted: the peaks, the
   * usable intervals among the first 20 peaks, the route their counts
   * select, and the tempo: 120, or the adjusted median tempo.
   */
  ghost predicate TempoOutcome(onsets: seq<real>, sampleRate: nat, tempo: real, route: TempoRoute,
                               peaks: seq<int>, intervals: seq<real>)
    requires sampleRate > 0
  {
    PeakPicking(onsets, 2, 2, OnsetThreshold(onsets), 0, peaks) &&
    (|peaks| >= 8 ==> intervals == Within(Gaps(Times(peaks, BufferSize, sampleRate), 20), 0.3, 2.0)) &&
    (route == FewPeaks <==> |peaks| < 8) &&
    (route == FewIntervals <==> |peaks| >= 8 && |intervals| < 3) &&
    route != ExtractError &&
    (route != FromMedian ==> tempo == DefaultTempo) &&
    (route == FromMedian ==> |intervals| > 0 && MedianAdjusted(Round(60.0 / Median(intervals)), tempo))
  }

  /** Peaks, intervals and the median once the envelope exists. */
  method TempoFromOnsets(onsets: seq<real>, sampleRate: nat)
    returns (tempo: real, ghost route: TempoRoute, ghost peaks: seq<int>, ghost intervals: seq<real>)
    requires sampleRate > 0
    ensures TempoOutcome(onsets, sampleRate, tempo, route, peaks, intervals)
  {
    var threshold := OnsetThreshold(onsets);
    var found := PickPeaks(onsets, 2, 2, threshold, 0);
    peaks := found;
    intervals := [];
    if |found| < 8 {
      return DefaultTempo, FewPeaks, peaks, intervals;
    }
    var times := Times(found, BufferSize, sampleRate);
    var usable := CollectIntervals(times, 20, 0.3, 2.0);
    intervals := usable;
    if |usable| < 3 {
      return DefaultTempo, FewIntervals, peaks, intervals;
    }
    tempo := MedianTempo(usable);
    route := FromMedian;
  }

  /**
   * detectTempoWithMeyda over at most 200 frames. `extract(i)` stands for
   * Meyda.extract's spectral centroid and RMS of frame i (None: it threw,
   * and the catch resolves 120).
   */
  method DetectTempoWithMeyda(audioData: seq<real>, sampleRate: nat, extract: nat -> Option<Features>)
    returns (tempo: real, ghost route: TempoRoute, ghost peaks: seq<int>, ghost intervals: seq<real>)
    requires sampleRate > 0
    ensures route == ExtractError <==> exists i :: 0 <= i < FramesProcessed(|audioData|, 200) && extract(i).None?
    ensures route == ExtractError ==> tempo == DefaultTempo
    ensures route != ExtractError ==>
              TempoOutcome(Onsets(FramesOf(extract, FramesProcessed(|audioData|, 200))).onsets, sampleRate, tempo, route, peaks, intervals)
    ensures 70.0 <= tempo <= 180.0
  {
    var numFrames := FramesProcessed(|audioData|, 200);
    var onsets := OnsetStrength(extract, numFrames);
    if onsets.None? {
      return DefaultTempo, ExtractError, [], [];
    }
    tempo, route, peaks, intervals := TempoFromOnsets(onsets.value, sampleRate);
  }

  // ----------------------------------------------------------------- key

  /** The chroma frames kept: those that extracted as an array, in order. */
  function Present(chroma: nat -> Option<seq<real>>, n: nat): (r: seq<seq<real>>)
    ensures |r| <= n
  {
    if n == 0 then []
    else if chroma(n - 1).Some? then Present(chroma, n - 1) + [chroma(n - 1).value]
    else Present(chroma, n - 1)
  }

  /** The frame loop keeping each chroma that extracted as an array. */
  method CollectChroma(chroma: nat -> Option<seq<real>>, n: nat) returns (features: seq<seq<real>>)
    ensures features == Present(chroma, n)
  {
    features := [];
    var i := 0;
    while i < n
      invariant 0 <= i <= n && features == Present(chroma, i)
    {
      var c := chroma(i);
      if c.Some? {
        features := features + [c.value];
      }
      i := i + 1;
    }
  }

  /** The nested averaging loops. */
  method AverageChroma(features: seq<seq<real>>) returns (avg: seq<real>)
    requires |features| > 0
    ensures avg == Average(features, |features|, 12)
  {
    avg := seq(12, _ => 0.0);
    var k := 0;
    while k < |features|
      invariant 0 <= k <= |features| && avg == Average(features, k, 12)
    {
      var frame := features[k];
      var next := avg;
      var i := 0;
      while i < Min(12, |frame|)
        invariant 0 <= i <= Min(12, |frame|) && |next| == 12
        invariant forall j :: 0 <= j < i ==> next[j] == avg[j] + frame[j] / |features| as real
        invariant forall j :: i <= j < 12 ==> next[j] == avg[j]
      {
        next := next[i := next[i] + frame[i] / |features| as real];
        i := i + 1;
      }
      assert next == AddFrame(avg, frame, |features|);
      avg := next;
      k := k + 1;
    }
  }

  /**
   * detectKeyWithMeyda over at most 150 frames. `chroma(i)` stands for
   * Meyda.extract's chroma of frame i (None: it threw or was not an
   * array; the frame is skipped). No usable frame gives "C Major";
   * otherwise the key is the first strict maximum from -Infinity of the
   * raw templates' scores of the max-normalised average chroma.
   */
  method DetectKeyWithMeyda(audioData: seq<real>, chroma: nat -> Option<seq<real>>)
    returns (key: string, ghost avg: seq<real>, ghost w: Option<nat>)
    ensures |Present(chroma, FramesProcessed(|audioData|, 150))| == 0 ==> key == "C Major"
    ensures |Present(chroma, FramesProcessed(|audioData|, 150))| > 0 ==>
              avg == MaxNormalized(Average(Present(chroma, FramesProcessed(|audioData|, 150)), |Present(chroma, FramesProcessed(|audioData|, 150))|, 12)) &&
              FirstStrictMax(CandidateScores(avg, MajorProfile, MinorProfile), NegInfinity, w) &&
              w.Some? && w.value < 24 && key == KeyName(Candidate(w.value))
    ensures IsKeyName(key)
  {
    var numFrames := FramesProcessed(|audioData|, 150);
    var features := CollectChroma(chroma, numFrames);
    if |features| == 0 {
      KeyNameIsKeyName(CMajor);
      return "C Major", [], None;
    }
    var average := AverageChroma(features);
    var normalized := MaxNormalize(average);
    avg := normalized;
    key, w := ScanRaw(normalized, NegInfinity);
    NegInfinityAlwaysWins(CandidateScores(normalized, MajorProfile, MinorProfile), w);
  }

  /** The max-normalisation does not change the key: the raw average's scores pick the same winner. */
  lemma NormalizationKeepsKey(average: seq<real>, w: Option<nat>)
    requires |average| == 12
    ensures FirstStrictMax(CandidateScores(MaxNormalized(average), MajorProfile, MinorProfile), NegInfinity, w)
        <==> FirstStrictMax(CandidateScores(average, MajorProfile, MinorProfile), NegInfinity, w)
  {
    if MaxOf(average) > 0.0 {
      ScaledChromaSameWinner(average, MajorProfile, MinorProfile, MaxOf(average), w);
    }
  }
}
