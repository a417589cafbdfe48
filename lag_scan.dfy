// The autocorrelation lag scans of the tempo fallbacks: for each lag
// minLag, minLag + lagStep, ... below a limit, the mean of the products
// data[i] * data[i + lag] over i = 0, stride, 2 * stride, ... below
// len - lag, and the running best of those means.

module LagScan {
  import opened Wrappers
  import opened Argmax
  import opened Numeric

  /** Math.floor(sampleRate * 0.3): the shortest lag the fallbacks try, 0.3 s (200 BPM). */
  function MinLag(sampleRate: nat): nat
  {
    Floor(sampleRate as real * 0.3)
  }

  /** Math.floor(sampleRate * 1.5): the lag bound, 1.5 s (40 BPM). */
  function MaxLag(sampleRate: nat): nat
  {
    Floor(sampleRate as real * 1.5)
  }

  /** 60 * sampleRate / lag: the tempo whose beat lasts `lag` samples. */
  function LagBpm(sampleRate: nat, lag: nat): (r: real)
    requires sampleRate > 0 && lag > 0
    ensures r > 0.0
  {
    QuotientAbove(60.0 * sampleRate as real, lag as real, 0.0);
    60.0 * sampleRate as real / lag as real
  }

  /** Sum of data[i] * data[i + lag] for i = from, from + stride, ... below end. */
  function ProductsFrom(data: seq<real>, lag: nat, stride: nat, from: nat, end: int): real
    requires stride > 0 && end + lag <= |data|
    decreases end - from
  {
    if from >= end then 0.0
    else data[from] * data[from + lag] + ProductsFrom(data, lag, stride, from + stride, end)
  }

  /** How many of from, from + stride, ... lie below end. */
  function CountFrom(stride: nat, from: nat, end: int): (n: nat)
    requires stride > 0
    ensures n > 0 <==> from < end
    decreases end - from
  {
    if from >= end then 0 else 1 + CountFrom(stride, from + stride, end)
  }

  /** The k-th of from, from + stride, ... counted by CountFrom lies below end. */
  lemma {:induction false} CountFromBound(stride: nat, from: nat, end: int, k: nat)
    requires stride > 0 && k < CountFrom(stride, from, end)
    ensures from + k * stride < end
    decreases end - from
  {
    if k > 0 {
      CountFromBound(stride, from + stride, end, k - 1);
      assert from + stride + (k - 1) * stride == from + k * stride;
    }
  }

  /** The mean product at one lag, taken over the first len samples. */
  function MeanProduct(data: seq<real>, len: nat, lag: nat, stride: nat): real
    requires stride > 0 && lag < len <= |data|
  {
    ProductsFrom(data, lag, stride, 0, len - lag) / CountFrom(stride, 0, len - lag) as real
  }

  /**
   * `for (let i = 0; i < len - lag; i += stride) { correlation += ...; count++ }`
   * followed by `correlation /= count`; count is positive because lag < len.
   */
  method MeanProductLoop(data: seq<real>, len: nat, lag: nat, stride: nat) returns (correlation: real)
    requires stride > 0 && lag < len <= |data|
    ensures correlation == MeanProduct(data, len, lag, stride)
  {
    var sum := 0.0;
    var count := 0;
    var i := 0;
    while i < len - lag
      invariant sum + ProductsFrom(data, lag, stride, i, len - lag) == ProductsFrom(data, lag, stride, 0, len - lag)
      invariant count + CountFrom(stride, i, len - lag) == CountFrom(stride, 0, len - lag)
      decreases len - lag - i
    {
      sum := sum + data[i] * data[i + lag];
      count := count + 1;
      i := i + stride;
    }
    correlation := sum / count as real;
  }

  /** The lags from, from + lagStep, ... below limit, in scan order. */
  function LagsFrom(lagStep: nat, from: nat, limit: int): (r: seq<nat>)
    requires lagStep > 0
    decreases limit - from
  {
    if from >= limit then [] else [from] + LagsFrom(lagStep, from + lagStep, limit)
  }

  /** Every lag tried lies between from and limit. */
  lemma {:induction false} LagsFromBounds(lagStep: nat, from: nat, limit: int)
    requires lagStep > 0
    ensures forall k :: 0 <= k < |LagsFrom(lagStep, from, limit)| ==> from <= LagsFrom(lagStep, from, limit)[k] < limit
    decreases limit - from
  {
    if from < limit {
      LagsFromBounds(lagStep, from + lagStep, limit);
    }
  }

  /** The k-th lag tried is from + k * lagStep. */
  lemma {:induction false} LagsFromArithmetic(lagStep: nat, from: nat, limit: int, k: nat)
    requires lagStep > 0 && k < |LagsFrom(lagStep, from, limit)|
    ensures LagsFrom(lagStep, from, limit)[k] == from + k * lagStep
    decreases limit - from
  {
    if k > 0 {
      LagsFromArithmetic(lagStep, from + lagStep, limit, k - 1);
    }
  }

  /** The scan tries exactly the lags of that progression below limit. */
  lemma {:induction false} LagsFromComplete(lagStep: nat, from: nat, limit: int, k: nat)
    requires lagStep > 0 && from + k * lagStep < limit
    ensures k < |LagsFrom(lagStep, from, limit)|
    decreases limit - from
  {
    if k > 0 {
      assert from + lagStep + (k - 1) * lagStep == from + k * lagStep;
      LagsFromComplete(lagStep, from + lagStep, limit, k - 1);
    }
  }

  /** The mean product of each lag, in scan order; a lag at or past len, which the scan never tries, scores 0. */
  function LagScores(data: seq<real>, len: nat, stride: nat, lags: seq<nat>): (r: seq<real>)
    requires stride > 0 && len <= |data|
    ensures |r| == |lags|
  {
    seq(|lags|, k requires 0 <= k < |lags| => if lags[k] < len then MeanProduct(data, len, lags[k], stride) else 0.0)
  }

  /** The reported lag: the winner's, or minLag when no lag beats the initial best. */
  function ChosenLag(minLag: nat, lags: seq<nat>, w: Option<nat>): nat
    requires w.Some? ==> w.value < |lags|
  {
    if w.None? then minLag else lags[w.value]
  }

  /** The limit the scan stops at: min(maxLag, len). */
  function LagLimit(maxLag: nat, len: nat): nat
  {
    if maxLag < len then maxLag else len
  }

  /**
   * `for (let lag = minLag; lag < maxLag && lag < len; lag += lagStep)` with
   * `if (correlation > best) { best = correlation; bestLag = lag }`.
   */
  method BestLag(data: seq<real>, len: nat, minLag: nat, maxLag: nat, lagStep: nat, stride: nat, init: Bound)
    returns (bestLag: nat, ghost w: Option<nat>)
    requires lagStep > 0 && stride > 0 && len <= |data|
    ensures var lags := LagsFrom(lagStep, minLag, LagLimit(maxLag, len));
            FirstStrictMax(LagScores(data, len, stride, lags), init, w) &&
            (w.Some? ==> w.value < |lags|) &&
            bestLag == ChosenLag(minLag, lags, w)
    ensures bestLag >= minLag
    ensures bestLag == minLag || (bestLag < maxLag && bestLag < len)
  {
    var limit := LagLimit(maxLag, len);
    ghost var triedLags: seq<nat> := [];
    ghost var tried: seq<real> := [];
    var best := init;
    bestLag := minLag;
    w := None;
    var lag := minLag;
    while lag < maxLag && lag < len
      invariant Scanning(data, len, minLag, maxLag, lagStep, stride, init, lag, triedLags, tried, w, best, bestLag)
      decreases limit - lag
    {
      var correlation := MeanProductLoop(data, len, lag, stride);
      ScanningStep(data, len, minLag, maxLag, lagStep, stride, init, lag, triedLags, tried, w, best, bestLag, correlation);
      var beats := Beats(correlation, best);
      w := if beats then Some(|tried|) else w;
      best := if beats then Finite(correlation) else best;
      bestLag := if beats then lag else bestLag;
      tried := tried + [correlation];
      triedLags := triedLags + [lag];
      lag := lag + lagStep;
    }
    ScanningDone(data, len, minLag, maxLag, lagStep, stride, init, lag, triedLags, tried, w, best, bestLag);
  }

  /** The loop's state: the lags tried so far and the untried rest make up the scan, and Scanned holds. */
  ghost predicate Scanning(data: seq<real>, len: nat, minLag: nat, maxLag: nat, lagStep: nat, stride: nat, init: Bound,
                           lag: nat, triedLags: seq<nat>, tried: seq<real>, w: Option<nat>, best: Bound, bestLag: nat)
  {
    lagStep > 0 && lag >= minLag &&
    triedLags + LagsFrom(lagStep, lag, LagLimit(maxLag, len)) == LagsFrom(lagStep, minLag, LagLimit(maxLag, len)) &&
    Scanned(data, len, stride, init, minLag, triedLags, tried, w, best, bestLag) &&
    (bestLag == minLag || bestLag < lag)
  }

  lemma ScanningStep(data: seq<real>, len: nat, minLag: nat, maxLag: nat, lagStep: nat, stride: nat, init: Bound,
                     lag: nat, triedLags: seq<nat>, tried: seq<real>, w: Option<nat>, best: Bound, bestLag: nat,
                     correlation: real)
    requires Scanning(data, len, minLag, maxLag, lagStep, stride, init, lag, triedLags, tried, w, best, bestLag)
    requires lag < maxLag && lag < len && correlation == MeanProduct(data, len, lag, stride)
    ensures var beats := Beats(correlation, best);
            Scanning(data, len, minLag, maxLag, lagStep, stride, init, lag + lagStep, triedLags + [lag],
                     tried + [correlation], if beats then Some(|tried|) else w,
                     if beats then Finite(correlation) else best, if beats then lag else bestLag)
  {
    LagsStep(lagStep, lag, LagLimit(maxLag, len), triedLags, LagsFrom(lagStep, minLag, LagLimit(maxLag, len)));
    ScannedStep(data, len, stride, init, minLag, triedLags, tried, w, best, bestLag, lag, correlation);
  }

  lemma ScanningDone(data: seq<real>, len: nat, minLag: nat, maxLag: nat, lagStep: nat, stride: nat, init: Bound,
                     lag: nat, triedLags: seq<nat>, tried: seq<real>, w: Option<nat>, best: Bound, bestLag: nat)
    requires Scanning(data, len, minLag, maxLag, lagStep, stride, init, lag, triedLags, tried, w, best, bestLag)
    requires !(lag < maxLag && lag < len)
    ensures var lags := LagsFrom(lagStep, minLag, LagLimit(maxLag, len));
            FirstStrictMax(LagScores(data, len, stride, lags), init, w) &&
            (w.Some? ==> w.value < |lags|) &&
            bestLag == ChosenLag(minLag, lags, w)
    ensures bestLag >= minLag
    ensures bestLag == minLag || (bestLag < maxLag && bestLag < len)
  {
    var lags := LagsFrom(lagStep, minLag, LagLimit(maxLag, len));
    LagsFromBounds(lagStep, minLag, LagLimit(maxLag, len));
    LagsDone(lagStep, lag, LagLimit(maxLag, len), triedLags, lags);
    if bestLag != minLag {
      assert w.Some?;
      assert bestLag == lags[w.value];
    }
  }

  /** What the scan keeps about the lags tried so far: their scores, the winner, the best score and its lag. */
  ghost predicate Scanned(data: seq<real>, len: nat, stride: nat, init: Bound, minLag: nat, triedLags: seq<nat>,
                          tried: seq<real>, w: Option<nat>, best: Bound, bestLag: nat)
  {
    stride > 0 && len <= |data| &&
    (forall k :: 0 <= k < |triedLags| ==> triedLags[k] < len) &&
    tried == LagScores(data, len, stride, triedLags) &&
    FirstStrictMax(tried, init, w) &&
    (w.Some? ==> w.value < |tried|) &&
    best == BestSoFar(tried, init, w) &&
    bestLag == ChosenLag(minLag, triedLags, w)
  }

  /** Scoring one more lag and keeping it if it beats the best keeps Scanned. */
  lemma ScannedStep(data: seq<real>, len: nat, stride: nat, init: Bound, minLag: nat, triedLags: seq<nat>,
                    tried: seq<real>, w: Option<nat>, best: Bound, bestLag: nat, lag: nat, correlation: real)
    requires Scanned(data, len, stride, init, minLag, triedLags, tried, w, best, bestLag)
    requires lag < len && correlation == MeanProduct(data, len, lag, stride)
    ensures var beats := Beats(correlation, best);
            Scanned(data, len, stride, init, minLag, triedLags + [lag], tried + [correlation],
                    if beats then Some(|tried|) else w, if beats then Finite(correlation) else best,
                    if beats then lag else bestLag)
  {
    FirstStrictMaxStep(tried, init, w, correlation);
    LagScoresSnoc(data, len, stride, triedLags, lag);
    var tl := triedLags + [lag];
    assert forall k :: 0 <= k < |triedLags| ==> tl[k] == triedLags[k];
    if !Beats(correlation, best) && w.Some? {
      assert (tried + [correlation])[w.value] == tried[w.value];
    }
  }

  lemma LagScoresSnoc(data: seq<real>, len: nat, stride: nat, lags: seq<nat>, lag: nat)
    requires stride > 0 && len <= |data| && lag < len && forall k :: 0 <= k < |lags| ==> lags[k] < len
    ensures LagScores(data, len, stride, lags + [lag]) == LagScores(data, len, stride, lags) + [MeanProduct(data, len, lag, stride)]
  {
  }

  /** Trying one more lag moves it from the untried suffix to the tried prefix. */
  lemma LagsStep(lagStep: nat, lag: nat, limit: int, triedLags: seq<nat>, lags: seq<nat>)
    requires lagStep > 0 && lag < limit
    requires triedLags + LagsFrom(lagStep, lag, limit) == lags
    ensures (triedLags + [lag]) + LagsFrom(lagStep, lag + lagStep, limit) == lags
  {
    var rest := LagsFrom(lagStep, lag + lagStep, limit);
    assert LagsFrom(lagStep, lag, limit) == [lag] + rest;
    assert triedLags + ([lag] + rest) == (triedLags + [lag]) + rest;
  }

  lemma LagsDone(lagStep: nat, lag: nat, limit: int, triedLags: seq<nat>, lags: seq<nat>)
    requires lagStep > 0 && lag >= limit
    requires triedLags + LagsFrom(lagStep, lag, limit) == lags
    ensures triedLags == lags
  {
    assert LagsFrom(lagStep, lag, limit) == [];
    assert triedLags + [] == triedLags;
  }
}
