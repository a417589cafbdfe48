// Peak picking on an onset or energy envelope, and the inter-peak
// intervals the tempo estimators keep.

module Peaks {

  /**
   * env[i] is a peak of the given radius: above the threshold and strictly
   * above every neighbour at distance 1..radius.
   */
  predicate IsPeak(env: seq<real>, i: int, radius: nat, thr: real)
  {
    radius <= i < |env| - radius && env[i] > thr &&
    forall j :: i - radius <= j <= i + radius && j != i ==> env[i] > env[j]
  }

  predicate StrictlyIncreasing(s: seq<int>)
  {
    forall j, k :: 0 <= j < k < |s| ==> s[j] < s[k]
  }

  /** Every skipped peak below `upTo` lies within minDist of an earlier accepted peak. */
  predicate SkippedOnlyForSpacing(env: seq<real>, peaks: seq<int>, start: nat, radius: nat, thr: real, minDist: nat, upTo: int)
  {
    forall i :: start <= i < upTo && IsPeak(env, i, radius, thr) && i !in peaks ==>
      exists j :: 0 <= j < |peaks| && peaks[j] < i && i - peaks[j] < minDist
  }

  predicate SpacedBy(peaks: seq<int>, minDist: nat)
  {
    forall j :: 0 < j < |peaks| ==> peaks[j] - peaks[j - 1] >= minDist
  }

  predicate PeaksBetween(env: seq<real>, peaks: seq<int>, start: nat, radius: nat, thr: real, upTo: int)
  {
    forall j :: 0 <= j < |peaks| ==> start <= peaks[j] < upTo && IsPeak(env, peaks[j], radius, thr)
  }

  /** Accepting peak i keeps every loop fact. */
  lemma AcceptStep(env: seq<real>, peaks: seq<int>, start: nat, radius: nat, thr: real, minDist: nat, i: int)
    requires start <= i && IsPeak(env, i, radius, thr)
    requires |peaks| == 0 || i - peaks[|peaks| - 1] >= minDist
    requires StrictlyIncreasing(peaks) && SpacedBy(peaks, minDist)
    requires PeaksBetween(env, peaks, start, radius, thr, i)
    requires SkippedOnlyForSpacing(env, peaks, start, radius, thr, minDist, i)
    ensures StrictlyIncreasing(peaks + [i]) && SpacedBy(peaks + [i], minDist)
    ensures PeaksBetween(env, peaks + [i], start, radius, thr, i + 1)
    ensures SkippedOnlyForSpacing(env, peaks + [i], start, radius, thr, minDist, i + 1)
  {
    AcceptKeepsOrder(env, peaks, start, radius, thr, minDist, i);
    AcceptKeepsPeaks(env, peaks, start, radius, thr, i);
    AcceptKeepsSkipped(env, peaks, start, radius, thr, minDist, i);
  }

  lemma AcceptKeepsOrder(env: seq<real>, peaks: seq<int>, start: nat, radius: nat, thr: real, minDist: nat, i: int)
    requires |peaks| == 0 || i - peaks[|peaks| - 1] >= minDist
    requires StrictlyIncreasing(peaks) && SpacedBy(peaks, minDist)
    requires PeaksBetween(env, peaks, start, radius, thr, i)
    ensures StrictlyIncreasing(peaks + [i]) && SpacedBy(peaks + [i], minDist)
  {
    var p := peaks + [i];
    forall j, k | 0 <= j < k < |p| ensures p[j] < p[k] {
      assert p[j] == peaks[j];
      if k < |peaks| {
        assert p[k] == peaks[k];
      }
    }
    forall j | 0 < j < |p| ensures p[j] - p[j - 1] >= minDist {
      assert p[j - 1] == peaks[j - 1];
      if j < |peaks| {
        assert p[j] == peaks[j];
      }
    }
  }

  lemma AcceptKeepsPeaks(env: seq<real>, peaks: seq<int>, start: nat, radius: nat, thr: real, i: int)
    requires start <= i && IsPeak(env, i, radius, thr)
    requires PeaksBetween(env, peaks, start, radius, thr, i)
    ensures PeaksBetween(env, peaks + [i], start, radius, thr, i + 1)
  {
    var p := peaks + [i];
    forall j | 0 <= j < |p| ensures start <= p[j] < i + 1 && IsPeak(env, p[j], radius, thr) {
      if j < |peaks| {
        assert p[j] == peaks[j];
      }
    }
  }

  lemma AcceptKeepsSkipped(env: seq<real>, peaks: seq<int>, start: nat, radius: nat, thr: real, minDist: nat, i: int)
    requires SkippedOnlyForSpacing(env, peaks, start, radius, thr, minDist, i)
    ensures SkippedOnlyForSpacing(env, peaks + [i], start, radius, thr, minDist, i + 1)
  {
    var p := peaks + [i];
    forall i' | start <= i' < i + 1 && IsPeak(env, i', radius, thr) && i' !in p
      ensures exists j :: 0 <= j < |p| && p[j] < i' && i' - p[j] < minDist
    {
      var j :| 0 <= j < |peaks| && peaks[j] < i' && i' - peaks[j] < minDist;
      assert p[j] == peaks[j];
    }
  }

  /** Skipping a peak that falls too close to the last accepted one keeps every loop fact. */
  lemma SkipStep(env: seq<real>, peaks: seq<int>, start: nat, radius: nat, thr: real, minDist: nat, i: int)
    requires start <= i
    requires IsPeak(env, i, radius, thr) ==> |peaks| > 0 && peaks[|peaks| - 1] < i && i - peaks[|peaks| - 1] < minDist
    requires SkippedOnlyForSpacing(env, peaks, start, radius, thr, minDist, i)
    ensures SkippedOnlyForSpacing(env, peaks, start, radius, thr, minDist, i + 1)
  {
  }

  /**
   * What the peak loop leaves: increasing peaks in [start, |env| - start),
   * each a peak of the given radius above thr, consecutive ones at least
   * minDist apart, and every other peak in that range skipped only for
   * falling within minDist of an earlier accepted one.
   */
  predicate PeakPicking(env: seq<real>, start: nat, radius: nat, thr: real, minDist: nat, peaks: seq<int>)
  {
    StrictlyIncreasing(peaks) &&
    (forall j :: 0 <= j < |peaks| ==> start <= peaks[j] < |env| - start && IsPeak(env, peaks[j], radius, thr)) &&
    SpacedBy(peaks, minDist) &&
    (forall i :: start <= i < |env| - start && IsPeak(env, i, radius, thr) && i !in peaks ==>
       exists j :: 0 <= j < |peaks| && peaks[j] < i && i - peaks[j] < minDist)
  }

  /**
   * `for (let i = start; i < env.length - start; i++)`: collects the peaks,
   * accepting a peak only when at least minDist frames have passed since
   * the last accepted one (minDist 0: no spacing rule).
   */
  method PickPeaks(env: seq<real>, start: nat, radius: nat, thr: real, minDist: nat) returns (peaks: seq<int>)
    requires radius <= start
    ensures PeakPicking(env, start, radius, thr, minDist, peaks)
  {
    peaks := [];
    var i := start;
    while i < |env| - start
      invariant start <= i
      invariant i <= |env| - start || peaks == []
      invariant Picking(env, peaks, start, radius, thr, minDist, i)
    {
      var accept := IsPeak(env, i, radius, thr) && (|peaks| == 0 || i - peaks[|peaks| - 1] >= minDist);
      PickStep(env, peaks, start, radius, thr, minDist, i);
      if accept {
        peaks := peaks + [i];
      }
      i := i + 1;
    }
    PickDone(env, peaks, start, radius, thr, minDist, i);
  }

  /** The loop facts after scanning up to i. */
  predicate Picking(env: seq<real>, peaks: seq<int>, start: nat, radius: nat, thr: real, minDist: nat, i: int)
  {
    StrictlyIncreasing(peaks) && SpacedBy(peaks, minDist) &&
    PeaksBetween(env, peaks, start, radius, thr, i) &&
    SkippedOnlyForSpacing(env, peaks, start, radius, thr, minDist, i)
  }

  /** Frame i is accepted or skipped, and the loop facts then hold up to i + 1. */
  lemma PickStep(env: seq<real>, peaks: seq<int>, start: nat, radius: nat, thr: real, minDist: nat, i: int)
    requires start <= i && Picking(env, peaks, start, radius, thr, minDist, i)
    ensures var accept := IsPeak(env, i, radius, thr) && (|peaks| == 0 || i - peaks[|peaks| - 1] >= minDist);
            Picking(env, if accept then peaks + [i] else peaks, start, radius, thr, minDist, i + 1)
  {
    if IsPeak(env, i, radius, thr) && (|peaks| == 0 || i - peaks[|peaks| - 1] >= minDist) {
      AcceptStep(env, peaks, start, radius, thr, minDist, i);
    } else {
      if |peaks| > 0 {
        assert peaks[|peaks| - 1] < i;
      }
      SkipStep(env, peaks, start, radius, thr, minDist, i);
      assert PeaksBetween(env, peaks, start, radius, thr, i + 1);
    }
  }

  /** When the scan ends, the loop facts are PeakPicking. */
  lemma PickDone(env: seq<real>, peaks: seq<int>, start: nat, radius: nat, thr: real, minDist: nat, i: int)
    requires i >= |env| - start && (i <= |env| - start || peaks == [])
    requires Picking(env, peaks, start, radius, thr, minDist, i)
    ensures PeakPicking(env, start, radius, thr, minDist, peaks)
  {
  }

  /** Without a spacing rule every peak in the scanned range is kept. */
  lemma NoSpacingKeepsAll(env: seq<real>, start: nat, radius: nat, thr: real, peaks: seq<int>, i: int)
    requires PeakPicking(env, start, radius, thr, 0, peaks)
    requires start <= i < |env| - start && IsPeak(env, i, radius, thr)
    ensures i in peaks
  {
  }

  /** points[i] - points[i - 1] for 1 <= i < min(|points|, limit). */
  function Gaps(points: seq<real>, limit: nat): (g: seq<real>)
    ensures |g| == if |points| <= 1 || limit <= 1 then 0 else (if |points| < limit then |points| else limit) - 1
  {
    var n := if |points| < limit then |points| else limit;
    if n <= 1 then [] else seq(n - 1, k requires 0 <= k < n - 1 => points[k + 1] - points[k])
  }

  /** The elements of s strictly between lo and hi, in order. */
  function Within(s: seq<real>, lo: real, hi: real): (r: seq<real>)
    ensures |r| <= |s|
    ensures forall k :: 0 <= k < |r| ==> lo < r[k] < hi
    ensures forall x :: x in r <==> x in s && lo < x < hi
  {
    if |s| == 0 then []
    else
      var rest := Within(s[..|s| - 1], lo, hi);
      assert forall x :: x in s <==> x in s[..|s| - 1] || x == s[|s| - 1];
      if lo < s[|s| - 1] < hi then rest + [s[|s| - 1]] else rest
  }

  /**
   * The interval loop: `for (let i = 1; i < Math.min(points.length, limit); i++)`
   * pushes the gaps strictly between lo and hi.
   */
  method CollectIntervals(points: seq<real>, limit: nat, lo: real, hi: real) returns (intervals: seq<real>)
    ensures intervals == Within(Gaps(points, limit), lo, hi)
    ensures forall k :: 0 <= k < |intervals| ==> lo < intervals[k] < hi
  {
    var n := if |points| < limit then |points| else limit;
    ghost var gaps := Gaps(points, limit);
    intervals := [];
    var i := 1;
    while i < n
      invariant 1 <= i && (n >= 1 ==> i <= n)
      invariant n <= 1 ==> i == 1
      invariant intervals == Within(gaps[..i - 1], lo, hi)
    {
      var interval := points[i] - points[i - 1];
      assert gaps[..i] == gaps[..i - 1] + [interval];
      assert gaps[..i][..i - 1] == gaps[..i - 1];
      if lo < interval < hi {
        intervals := intervals + [interval];
      }
      i := i + 1;
    }
    assert n <= 1 ==> gaps == [];
    assert n > 1 ==> gaps[..n - 1] == gaps;
  }

  /** Frame indices converted to seconds: index * hop / sampleRate. */
  function Times(indices: seq<int>, hop: nat, sampleRate: nat): (t: seq<real>)
    requires sampleRate > 0
    ensures |t| == |indices|
  {
    seq(|indices|, j requires 0 <= j < |indices| => indices[j] as real * hop as real / sampleRate as real)
  }

  /** Increasing indices give increasing times when the hop is positive. */
  lemma TimesIncreasing(indices: seq<int>, hop: nat, sampleRate: nat)
    requires sampleRate > 0 && hop > 0 && StrictlyIncreasing(indices)
    ensures forall j, k :: 0 <= j < k < |indices| ==> Times(indices, hop, sampleRate)[j] < Times(indices, hop, sampleRate)[k]
  {
    var t := Times(indices, hop, sampleRate);
    forall j, k | 0 <= j < k < |indices| ensures t[j] < t[k] {
      var h := hop as real / sampleRate as real;
      assert h > 0.0;
      assert t[j] == indices[j] as real * h && t[k] == indices[k] as real * h;
      assert (indices[k] - indices[j]) as real * h > 0.0;
    }
  }
}
