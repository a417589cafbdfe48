// The first-order filters and the spectral centroid of
// src/hooks/audioAnalysis/audioUtils.ts. The 0.97 high-pass of the tempo
// estimators is the same recurrence with a fixed coefficient.

module AudioUtils {
  import opened Numeric

  /**
   * The first n outputs of the high-pass recurrence
   * f[0] = data[0], f[i] = alpha * (f[i-1] + data[i] - data[i-1]).
   */
  /** One high-pass output from the previous output and the last two inputs. */
  function HighPassStep(alpha: real, prev: real, x: real, xPrev: real): real
  {
    alpha * (prev + x - xPrev)
  }

  function HighPass(data: seq<real>, alpha: real, n: nat): (f: seq<real>)
    requires n <= |data|
    ensures |f| == n
  {
    if n == 0 then []
    else if n == 1 then [data[0]]
    else
      var p := HighPass(data, alpha, n - 1);
      p + [HighPassStep(alpha, p[n - 2], data[n - 1], data[n - 2])]
  }

  /** Every output of HighPass satisfies the recurrence, index by index. */
  lemma {:induction false} HighPassRecurrence(data: seq<real>, alpha: real, n: nat)
    requires n <= |data|
    ensures n > 0 ==> HighPass(data, alpha, n)[0] == data[0]
    ensures forall i :: 1 <= i < n ==>
              HighPass(data, alpha, n)[i] == HighPassStep(alpha, HighPass(data, alpha, n)[i - 1], data[i], data[i - 1])
  {
    if n > 1 {
      HighPassRecurrence(data, alpha, n - 1);
      var p := HighPass(data, alpha, n - 1);
      var f := HighPass(data, alpha, n);
      assert f[..n - 1] == p;
      forall i | 1 <= i < n
        ensures f[i] == HighPassStep(alpha, f[i - 1], data[i], data[i - 1])
      {
        if i < n - 1 {
          assert f[i] == p[i] && f[i - 1] == p[i - 1];
        }
      }
    }
  }

  /** The filter is causal: the first n outputs depend only on the first n inputs. */
  lemma {:induction false} HighPassCausal(data: seq<real>, alpha: real, n: nat)
    requires n <= |data|
    ensures HighPass(data, alpha, n) == HighPass(data[..n], alpha, n)
  {
    if n > 1 {
      HighPassPrefixes(data, data[..n], alpha, n);
    }
  }

  lemma {:induction false} HighPassPrefixes(a: seq<real>, b: seq<real>, alpha: real, n: nat)
    requires n <= |a| && n <= |b| && a[..n] == b[..n]
    ensures HighPass(a, alpha, n) == HighPass(b, alpha, n)
  {
    if n > 1 {
      assert a[..n - 1] == b[..n - 1] by {
        assert a[..n - 1] == a[..n][..n - 1];
        assert b[..n - 1] == b[..n][..n - 1];
      }
      assert a[n - 1] == a[..n][n - 1] && a[n - 2] == a[..n][n - 2];
      assert b[n - 1] == b[..n][n - 1] && b[n - 2] == b[..n][n - 2];
      assert a[n - 1] == b[n - 1] && a[n - 2] == b[n - 2];
      HighPassPrefixes(a, b, alpha, n - 1);

    } else if n == 1 {
      assert a[0] == a[..n][0] && b[0] == b[..n][0];
    }
  }

  function Power(x: real, k: nat): real
  {
    if k == 0 then 1.0 else x * Power(x, k - 1)
  }

  /** A constant input c decays geometrically: the filter removes the DC level. */
  lemma {:induction false} HighPassOfConstant(data: seq<real>, alpha: real, c: real, n: nat)
    requires n <= |data| && forall i :: 0 <= i < |data| ==> data[i] == c
    ensures forall i :: 0 <= i < n ==> HighPass(data, alpha, n)[i] == c * Power(alpha, i)
  {
    if n > 1 {
      HighPassOfConstant(data, alpha, c, n - 1);
      var p := HighPass(data, alpha, n - 1);
      assert p[n - 2] == c * Power(alpha, n - 2);
      assert c * Power(alpha, n - 1) == alpha * (c * Power(alpha, n - 2));
    }
  }

  /**
   * The high-pass loop over the first n samples into a fresh buffer:
   * `filtered[0] = data[0]` (no effect on an empty buffer), then the
   * recurrence for i = 1 .. n - 1.
   */
  method HighPassFilter(data: seq<real>, alpha: real, n: nat) returns (filtered: seq<real>)
    requires n <= |data|
    ensures filtered == HighPass(data, alpha, n)
  {
    var buffer := new real[n](_ => 0.0);
    if n > 0 {
      buffer[0] := data[0];
    }
    var i := 1;
    while i < n
      invariant 1 <= i && (n > 0 ==> i <= n)
      invariant n > 0 ==> buffer[..i] == HighPass(data, alpha, i)
    {
      ghost var prefix := buffer[..i];
      buffer[i] := HighPassStep(alpha, buffer[i - 1], data[i], data[i - 1]);
      assert buffer[..i] == prefix;
      assert buffer[..i + 1] == prefix + [buffer[i]];
      i := i + 1;
    }
    if n == 0 {
      return [];
    }
    assert buffer[..] == buffer[..n];
    filtered := buffer[..];
  }

  /** applyHighPassFilter: the recurrence over the whole input. */
  method ApplyHighPassFilter(data: seq<real>, alpha: real) returns (filtered: seq<real>)
    ensures filtered == HighPass(data, alpha, |data|)
  {
    filtered := HighPassFilter(data, alpha, |data|);
  }

  /**
   * The coefficients computed from rc = 1 / (2 pi cutoff) and dt = 1 / sampleRate:
   * alpha = rc / (rc + dt) for the high-pass, dt / (rc + dt) for the low-pass;
   * both lie strictly between 0 and 1 and add up to 1.
   */
  function HighPassAlpha(rc: real, dt: real): (a: real)
    requires rc > 0.0 && dt > 0.0
    ensures 0.0 < a < 1.0
  {
    rc / (rc + dt)
  }

  function LowPassAlpha(rc: real, dt: real): (a: real)
    requires rc > 0.0 && dt > 0.0
    ensures 0.0 < a < 1.0
  {
    dt / (rc + dt)
  }

  lemma AlphasComplementary(rc: real, dt: real)
    requires rc > 0.0 && dt > 0.0
    ensures HighPassAlpha(rc, dt) + LowPassAlpha(rc, dt) == 1.0
  {
    assert rc / (rc + dt) + dt / (rc + dt) == (rc + dt) / (rc + dt);
  }

  /**
   * The first n outputs of the low-pass recurrence
   * f[0] = data[0], f[i] = alpha * data[i] + (1 - alpha) * f[i-1].
   */
  /** One low-pass output from the input and the previous output. */
  function LowPassStep(alpha: real, x: real, prev: real): real
  {
    alpha * x + (1.0 - alpha) * prev
  }

  function LowPass(data: seq<real>, alpha: real, n: nat): (f: seq<real>)
    requires n <= |data|
    ensures |f| == n
  {
    if n == 0 then []
    else if n == 1 then [data[0]]
    else
      var p := LowPass(data, alpha, n - 1);
      p + [LowPassStep(alpha, data[n - 1], p[n - 2])]
  }

  /** A weight in [0, 1] mixes two values of [lo, hi] into [lo, hi]. */
  lemma MixWithin(alpha: real, x: real, y: real, lo: real, hi: real)
    requires 0.0 <= alpha <= 1.0 && lo <= x <= hi && lo <= y <= hi
    ensures lo <= LowPassStep(alpha, x, y) <= hi
  {
    var b := 1.0 - alpha;
    assert b >= 0.0;
    var dx, dy, ex, ey := x - lo, y - lo, hi - x, hi - y;
    assert alpha * dx >= 0.0 && b * dy >= 0.0;
    assert alpha * ex >= 0.0 && b * ey >= 0.0;
    assert alpha * x + b * y - lo == alpha * dx + b * dy;
    assert hi - (alpha * x + b * y) == alpha * ex + b * ey;
  }

  /** With a coefficient in [0, 1] the low-pass output stays within the input's range. */
  lemma {:induction false} LowPassWithinRange(data: seq<real>, alpha: real, lo: real, hi: real, n: nat)
    requires n <= |data| && 0.0 <= alpha <= 1.0
    requires forall i :: 0 <= i < |data| ==> lo <= data[i] <= hi
    ensures forall i :: 0 <= i < n ==> lo <= LowPass(data, alpha, n)[i] <= hi
  {
    if n > 1 {
      LowPassWithinRange(data, alpha, lo, hi, n - 1);
      var p := LowPass(data, alpha, n - 1);
      MixWithin(alpha, data[n - 1], p[n - 2], lo, hi);
    }
  }

  /** applyLowPassFilter: the low-pass loop over the whole input, into a fresh buffer. */
  method ApplyLowPassFilter(data: seq<real>, alpha: real) returns (filtered: seq<real>)
    ensures filtered == LowPass(data, alpha, |data|)
  {
    var n := |data|;
    var buffer := new real[n](_ => 0.0);
    if n > 0 {
      buffer[0] := data[0];
    }
    var i := 1;
    while i < n
      invariant 1 <= i && (n > 0 ==> i <= n)
      invariant n > 0 ==> buffer[..i] == LowPass(data, alpha, i)
    {
      ghost var prefix := buffer[..i];
      buffer[i] := LowPassStep(alpha, data[i], buffer[i - 1]);
      assert buffer[..i] == prefix;
      assert buffer[..i + 1] == prefix + [buffer[i]];
      i := i + 1;
    }
    if n == 0 {
      return [];
    }
    assert buffer[..] == buffer[..n];
    filtered := buffer[..];
  }

  // ------------------------------------------------------ spectral centroid

  /** The frequency of bin i of an n-bin spectrum: i * sampleRate / (2 n). */
  function BinFrequency(i: nat, sampleRate: nat, n: nat): real
    requires n > 0
  {
    (i * sampleRate) as real / (2 * n) as real
  }

  /** Sum over bins below upTo of frequency times magnitude. */
  function WeightedFrequencies(spectrum: seq<real>, sampleRate: nat, upTo: nat): real
    requires upTo <= |spectrum|
  {
    if upTo == 0 then 0.0
    else WeightedFrequencies(spectrum, sampleRate, upTo - 1) +
         BinFrequency(upTo - 1, sampleRate, |spectrum|) * spectrum[upTo - 1]
  }

  /** calculateSpectralCentroid: the magnitude-weighted mean frequency, 0 for no energy. */
  function Centroid(spectrum: seq<real>, sampleRate: nat): real
  {
    var den := Sum(spectrum);
    if den > 0.0 then WeightedFrequencies(spectrum, sampleRate, |spectrum|) / den else 0.0
  }

  /** The centroid loop: numerator and denominator accumulated bin by bin. */
  method SpectralCentroid(spectrum: seq<real>, sampleRate: nat) returns (centroid: real)
    ensures centroid == Centroid(spectrum, sampleRate)
  {
    var numerator := 0.0;
    var denominator := 0.0;
    var i := 0;
    while i < |spectrum|
      invariant 0 <= i <= |spectrum|
      invariant numerator == WeightedFrequencies(spectrum, sampleRate, i)
      invariant denominator == Sum(spectrum[..i])
    {
      assert spectrum[..i + 1][..i] == spectrum[..i];
      numerator := numerator + BinFrequency(i, sampleRate, |spectrum|) * spectrum[i];
      denominator := denominator + spectrum[i];
      i := i + 1;
    }
    assert spectrum[..i] == spectrum;
    centroid := if denominator > 0.0 then numerator / denominator else 0.0;
  }

  /** Bin frequencies of an n-bin spectrum lie in [0, (n - 1) sr / (2 n)]. */
  lemma BinFrequencyBounds(i: nat, sampleRate: nat, n: nat)
    requires i < n
    ensures 0.0 <= BinFrequency(i, sampleRate, n) <= BinFrequency(n - 1, sampleRate, n)
  {
    assert i * sampleRate <= (n - 1) * sampleRate;
  }

  /** For non-negative magnitudes the weighted sum is between 0 and top * the magnitude sum. */
  lemma {:induction false} WeightedFrequenciesBounds(spectrum: seq<real>, sampleRate: nat, upTo: nat)
    requires 0 < |spectrum| && upTo <= |spectrum| && AllNonNeg(spectrum)
    ensures 0.0 <= WeightedFrequencies(spectrum, sampleRate, upTo)
    ensures WeightedFrequencies(spectrum, sampleRate, upTo) <=
            BinFrequency(|spectrum| - 1, sampleRate, |spectrum|) * Sum(spectrum[..upTo])
  {
    if upTo > 0 {
      WeightedFrequenciesBounds(spectrum, sampleRate, upTo - 1);
      assert spectrum[..upTo][..upTo - 1] == spectrum[..upTo - 1];
      var f := BinFrequency(upTo - 1, sampleRate, |spectrum|);
      var top := BinFrequency(|spectrum| - 1, sampleRate, |spectrum|);
      BinFrequencyBounds(upTo - 1, sampleRate, |spectrum|);
      assert Sum(spectrum[..upTo]) == Sum(spectrum[..upTo - 1]) + spectrum[upTo - 1];
      WeightedStep(WeightedFrequencies(spectrum, sampleRate, upTo - 1), Sum(spectrum[..upTo - 1]), f, top,
                   spectrum[upTo - 1]);
    }
  }

  /** Adding a bin of frequency f <= top and magnitude x >= 0 keeps 0 <= W <= top * S. */
  lemma WeightedStep(w: real, total: real, f: real, top: real, x: real)
    requires 0.0 <= w <= top * total && 0.0 <= f <= top && x >= 0.0
    ensures 0.0 <= w + f * x <= top * (total + x)
  {
    assert f * x >= 0.0;
    assert (top - f) * x >= 0.0;
    assert top * (total + x) == top * total + top * x;
  }

  /**
   * For a non-negative spectrum the centroid is between 0 and the top bin's
   * frequency, below the Nyquist frequency sampleRate / 2.
   */
  lemma CentroidWithinBand(spectrum: seq<real>, sampleRate: nat)
    requires 0 < |spectrum| && AllNonNeg(spectrum)
    ensures 0.0 <= Centroid(spectrum, sampleRate) <= BinFrequency(|spectrum| - 1, sampleRate, |spectrum|)
    ensures BinFrequency(|spectrum| - 1, sampleRate, |spectrum|) <= sampleRate as real / 2.0
  {
    WeightedFrequenciesBounds(spectrum, sampleRate, |spectrum|);
    assert spectrum[..|spectrum|] == spectrum;
    var top := BinFrequency(|spectrum| - 1, sampleRate, |spectrum|);
    var den := Sum(spectrum);
    if den > 0.0 {
      QuotientAtMost(WeightedFrequencies(spectrum, sampleRate, |spectrum|), den, top);
      QuotientNonNeg(WeightedFrequencies(spectrum, sampleRate, |spectrum|), den);
    }
    var n := |spectrum|;
    assert (n - 1) * sampleRate <= n * sampleRate;
    assert top <= (n * sampleRate) as real / (2 * n) as real;
    assert (n * sampleRate) as real / (2 * n) as real == sampleRate as real / 2.0;
  }
}
