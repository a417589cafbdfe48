// Numeric helpers shared by the estimators and the user-interface rules:
// JavaScript's Math.round, clamping, sums and means over sequences of reals.

module Numeric {

  /** JavaScript's Math.round: the nearest integer, halves rounded up. */
  function Round(x: real): (r: int)
    ensures r as real - 0.5 <= x < r as real + 0.5
  {
    (x + 0.5).Floor
  }

  /** Math.floor on a real. */
  function Floor(x: real): (r: int)
    ensures r as real <= x < r as real + 1.0
  {
    x.Floor
  }

  /** Math.max(lo, Math.min(hi, x)). */
  function Clamp(x: real, lo: real, hi: real): (r: real)
    requires lo <= hi
    ensures lo <= r <= hi
    ensures lo <= x <= hi ==> r == x
    ensures x < lo ==> r == lo
    ensures x > hi ==> r == hi
  {
    if x < lo then lo else if x > hi then hi else x
  }

  /** Math.max(lo, Math.min(hi, x)) on integers. */
  function ClampInt(x: int, lo: int, hi: int): (r: int)
    requires lo <= hi
    ensures lo <= r <= hi
    ensures lo <= x <= hi ==> r == x
    ensures x < lo ==> r == lo
    ensures x > hi ==> r == hi
  {
    if x < lo then lo else if x > hi then hi else x
  }

  /**
   * What the model assumes of Math.sqrt: the root of 0 is 0 and the root of
   * a positive number is positive.
   */
  ghost predicate SqrtLike(sqrt: real -> real)
  {
    sqrt(0.0) == 0.0 && forall x :: x > 0.0 ==> sqrt(x) > 0.0
  }

  lemma SqrtNonNeg(sqrt: real -> real, x: real)
    requires SqrtLike(sqrt) && x >= 0.0
    ensures sqrt(x) >= 0.0
  {
    if x > 0.0 {
      assert sqrt(x) > 0.0;
    }
  }

  function Min(a: int, b: int): (r: int)
    ensures r <= a && r <= b && (r == a || r == b)
  {
    if a <= b then a else b
  }

  function Max(a: int, b: int): (r: int)
    ensures r >= a && r >= b && (r == a || r == b)
  {
    if a >= b then a else b
  }

  function Abs(x: real): (r: real)
    ensures r >= 0.0 && (r == x || r == -x)
  {
    if x < 0.0 then -x else x
  }

  /** Sum of s, accumulated from the left as Array.reduce does. */
  function Sum(s: seq<real>): real
  {
    if |s| == 0 then 0.0 else Sum(s[..|s| - 1]) + s[|s| - 1]
  }

  function SumSq(s: seq<real>): real
  {
    if |s| == 0 then 0.0 else SumSq(s[..|s| - 1]) + s[|s| - 1] * s[|s| - 1]
  }

  function Mean(s: seq<real>): real
    requires |s| > 0
  {
    Sum(s) / |s| as real
  }

  /** Sum of squared deviations from m, divided by the length. */
  function Variance(s: seq<real>, m: real): real
    requires |s| > 0
  {
    SumSqDev(s, m) / |s| as real
  }

  function SumSqDev(s: seq<real>, m: real): real
  {
    if |s| == 0 then 0.0
    else SumSqDev(s[..|s| - 1], m) + (s[|s| - 1] - m) * (s[|s| - 1] - m)
  }

  predicate AllNonNeg(s: seq<real>)
  {
    forall i :: 0 <= i < |s| ==> s[i] >= 0.0
  }

  lemma {:induction false} SumNonNeg(s: seq<real>)
    requires AllNonNeg(s)
    ensures Sum(s) >= 0.0
  {
    if |s| > 0 {
      SumNonNeg(s[..|s| - 1]);
    }
  }

  lemma {:induction false} SumSqNonNeg(s: seq<real>)
    ensures SumSq(s) >= 0.0
  {
    if |s| > 0 {
      SumSqNonNeg(s[..|s| - 1]);
    }
  }

  lemma {:induction false} SumSqDevNonNeg(s: seq<real>, m: real)
    ensures SumSqDev(s, m) >= 0.0
  {
    if |s| > 0 {
      SumSqDevNonNeg(s[..|s| - 1], m);
      var d := s[|s| - 1] - m;
      assert d * d >= 0.0;
    }
  }

  /** Each square is at most the sum of squares. */
  lemma {:induction false} SumSqAtLeast(s: seq<real>, i: nat)
    requires i < |s|
    ensures SumSq(s) >= s[i] * s[i]
  {
    if i == |s| - 1 {
      SumSqNonNeg(s[..|s| - 1]);
    } else {
      SumSqAtLeast(s[..|s| - 1], i);
      SquareNonNeg(s[|s| - 1]);
    }
  }

  lemma SquareNonNeg(x: real)
    ensures x * x >= 0.0
  {
  }

  /** Elements bounded by b sum to at most |s| * b. */
  lemma {:induction false} SumAtMost(s: seq<real>, b: real)
    requires forall i :: 0 <= i < |s| ==> s[i] <= b
    ensures Sum(s) <= |s| as real * b
  {
    if |s| > 0 {
      SumAtMost(s[..|s| - 1], b);
      assert (|s| - 1) as real * b + b == |s| as real * b;
    }
  }

  /** The mean of a non-empty sequence is at most any upper bound of it (its maximum, say), and non-negative for non-negative entries. */
  lemma MeanAtMost(s: seq<real>, b: real)
    requires |s| > 0 && forall i :: 0 <= i < |s| ==> s[i] <= b
    ensures Mean(s) <= b
  {
    SumAtMost(s, b);
    QuotientAtMost(Sum(s), |s| as real, b);
  }

  lemma MeanNonNeg(s: seq<real>)
    requires |s| > 0 && AllNonNeg(s)
    ensures Mean(s) >= 0.0
  {
    SumNonNeg(s);
    QuotientNonNeg(Sum(s), |s| as real);
  }

  lemma QuotientAtMost(x: real, n: real, b: real)
    requires n > 0.0 && x <= n * b
    ensures x / n <= b
  {
    assert x / n <= (n * b) / n;
  }

  lemma QuotientNonNeg(x: real, n: real)
    requires n > 0.0 && x >= 0.0
    ensures x / n >= 0.0
  {
  }

  /** The largest element of a non-empty sequence (Math.max(...s)). */
  function MaxOf(s: seq<real>): (r: real)
    requires |s| > 0
    ensures exists i :: 0 <= i < |s| && s[i] == r
    ensures forall i :: 0 <= i < |s| ==> s[i] <= r
  {
    if |s| == 1 then s[0]
    else
      var m := MaxOf(s[..|s| - 1]);
      assert forall i :: 0 <= i < |s| - 1 ==> s[..|s| - 1][i] == s[i];
      if s[|s| - 1] > m then s[|s| - 1] else m
  }

  /** The element-wise quotient s[i] / d, as the in-place normalisation loops leave it. */
  function Scaled(s: seq<real>, d: real): (r: seq<real>)
    requires d != 0.0
    ensures |r| == |s| && forall i :: 0 <= i < |s| ==> r[i] == s[i] / d
  {
    seq(|s|, i requires 0 <= i < |s| => s[i] / d)
  }

  /** Multiplying by a positive factor keeps the order. */
  lemma MulMono(q: real, b: real, l: real)
    requires l > 0.0 && q <= b
    ensures q * l <= b * l
  {
    assert (b - q) * l >= 0.0;
    assert (b - q) * l == b * l - q * l;
  }

  /** Cancelling a positive factor keeps a strict order. */
  lemma GreaterFactor(q: real, b: real, l: real)
    requires l > 0.0 && q * l > b * l
    ensures q > b
  {
    if q <= b {
      MulMono(q, b, l);
    }
  }

  /** Adding a product with a quotient to a quotient over the same divisor. */
  lemma DivStep(a: real, x: real, y: real, d: real)
    requires d != 0.0
    ensures a / d + x * (y / d) == (a + x * y) / d
  {
    var q, r := y / d, a / d;
    assert q * d == y && r * d == a;
    assert (r + x * q) * d == r * d + x * (q * d);
    assert (r + x * q) * d == a + x * y;
  }

  /** A quotient by a positive number exceeds b when the dividend exceeds b times it. */
  lemma QuotientAbove(x: real, l: real, b: real)
    requires l > 0.0 && x > b * l
    ensures x / l > b
  {
    var q := x / l;
    assert q * l == x;
    GreaterFactor(q, b, l);
  }

  /** A non-zero number divided by itself is 1. */
  lemma SelfQuotient(t: real)
    requires t != 0.0
    ensures t / t == 1.0
  {
  }
}
