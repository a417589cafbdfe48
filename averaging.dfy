// Element-wise averaging of a list of frames (chroma vectors or spectra):
// `avg[i] += frame[i] / frames.length` for every frame in turn, from zeros.

module Averaging {
  import opened Numeric

  /** One frame's contribution to every entry the frame has; the others stay. */
  function AddFrame(avg: seq<real>, frame: seq<real>, count: nat): (r: seq<real>)
    requires count > 0
    ensures |r| == |avg|
  {
    seq(|avg|, i requires 0 <= i < |avg| => if i < |frame| then avg[i] + frame[i] / count as real else avg[i])
  }

  /** The average of `width` entries after the first k frames. */
  function Average(frames: seq<seq<real>>, k: nat, width: nat): (r: seq<real>)
    requires k <= |frames| && |frames| > 0
    ensures |r| == width
  {
    if k == 0 then seq(width, _ => 0.0) else AddFrame(Average(frames, k - 1, width), frames[k - 1], |frames|)
  }

  /** Entry i of every frame, 0 where a frame is shorter. */
  function Column(frames: seq<seq<real>>, i: nat): (c: seq<real>)
    ensures |c| == |frames|
  {
    seq(|frames|, j requires 0 <= j < |frames| => if i < |frames[j]| then frames[j][i] else 0.0)
  }

  /** The accumulated average is the mean of each entry's column over all frames. */
  lemma AverageIsColumnMean(frames: seq<seq<real>>, width: nat, i: nat)
    requires |frames| > 0 && i < width
    ensures Average(frames, |frames|, width)[i] == Mean(Column(frames, i))
  {
    PartialAverage(frames, width, i, |frames|);
    assert Column(frames, i)[..|frames|] == Column(frames, i);
  }

  lemma {:induction false} PartialAverage(frames: seq<seq<real>>, width: nat, i: nat, k: nat)
    requires |frames| > 0 && i < width && k <= |frames|
    ensures Average(frames, k, width)[i] == Sum(Column(frames, i)[..k]) / |frames| as real
  {
    if k > 0 {
      PartialAverage(frames, width, i, k - 1);
      var c := Column(frames, i);
      assert c[..k][..k - 1] == c[..k - 1];
      AddQuotients(Sum(c[..k - 1]), c[k - 1], |frames| as real);
    }
  }

  lemma AddQuotients(a: real, b: real, n: real)
    requires n > 0.0
    ensures a / n + b / n == (a + b) / n
  {
  }

  /** Non-negative frames average to non-negative entries. */
  lemma {:induction false} AverageNonNeg(frames: seq<seq<real>>, k: nat, width: nat)
    requires |frames| > 0 && k <= |frames|
    requires forall j :: 0 <= j < |frames| ==> AllNonNeg(frames[j])
    ensures AllNonNeg(Average(frames, k, width))
  {
    if k > 0 {
      AverageNonNeg(frames, k - 1, width);
      var f := frames[k - 1];
      forall i | 0 <= i < width && i < |f| ensures f[i] / |frames| as real >= 0.0 {
        QuotientNonNeg(f[i], |frames| as real);
      }
    }
  }
}
