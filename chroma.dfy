// Chromagram accumulation shared by the spectral key estimators: the energy
// of a few spectrum bins around each note's centre bin, summed over
// octaves, and max-normalisation of the 12-entry result.

module Chroma {
  import opened Numeric

  /** The weight of bin b around centre c: 1 - |b - c| / (radius + 1). */
  function BinWeight(b: int, c: int, radius: nat): real
  {
    1.0 - (if b < c then c - b else b - c) as real / (radius + 1) as real
  }

  lemma BinWeightPositive(b: int, c: int, radius: nat)
    requires c - radius <= b <= c + radius
    ensures 0.0 < BinWeight(b, c, radius) <= 1.0
  {
    var d := if b < c then c - b else b - c;
    assert d as real < (radius + 1) as real;
    assert d as real / (radius + 1) as real < 1.0;
  }

  /** The lowest and highest bin of the window around c: max(1, c - r) and min(len - 1, c + r). */
  function WindowLo(c: int, radius: nat): int { if c - radius > 1 then c - radius else 1 }

  function WindowHi(len: nat, c: int, radius: nat): int { if c + radius < len - 1 then c + radius else len - 1 }

  /** Sum of spectrum[b] * BinWeight(b, c, radius) for lo <= b < upTo. */
  function WeightedSum(spectrum: seq<real>, c: int, radius: nat, lo: int, upTo: int): real
    requires 0 <= lo && upTo <= |spectrum|
    decreases upTo - lo
  {
    if upTo <= lo then 0.0
    else WeightedSum(spectrum, c, radius, lo, upTo - 1) + spectrum[upTo - 1] * BinWeight(upTo - 1, c, radius)
  }

  /** The energy around a centre bin 0 < c < |spectrum|. */
  function NeighbourEnergy(spectrum: seq<real>, c: int, radius: nat): real
    requires 0 < c < |spectrum|
  {
    WeightedSum(spectrum, c, radius, WindowLo(c, radius), WindowHi(|spectrum|, c, radius) + 1)
  }

  lemma {:induction false} WeightedSumNonNeg(spectrum: seq<real>, c: int, radius: nat, lo: int, upTo: int)
    requires 0 <= lo && upTo <= |spectrum| && AllNonNeg(spectrum)
    requires c - radius <= lo && upTo - 1 <= c + radius
    ensures WeightedSum(spectrum, c, radius, lo, upTo) >= 0.0
    decreases upTo - lo
  {
    if lo < upTo {
      WeightedSumNonNeg(spectrum, c, radius, lo, upTo - 1);
      BinWeightPositive(upTo - 1, c, radius);
      assert spectrum[upTo - 1] * BinWeight(upTo - 1, c, radius) >= 0.0;
    }
  }

  /** A non-negative spectrum gives non-negative neighbour energy. */
  lemma NeighbourEnergyNonNeg(spectrum: seq<real>, c: int, radius: nat)
    requires 0 < c < |spectrum| && AllNonNeg(spectrum)
    ensures NeighbourEnergy(spectrum, c, radius) >= 0.0
  {
    WeightedSumNonNeg(spectrum, c, radius, WindowLo(c, radius), WindowHi(|spectrum|, c, radius) + 1);
  }

  /**
   * `for (let b = Math.max(1, c - r); b <= Math.min(len - 1, c + r); b++)`:
   * every index read lies in [1, len).
   */
  method AccumulateNeighbours(spectrum: seq<real>, c: int, radius: nat) returns (e: real)
    requires 0 < c < |spectrum|
    ensures e == NeighbourEnergy(spectrum, c, radius)
  {
    var lo := if c - radius > 1 then c - radius else 1;
    var hi := if c + radius < |spectrum| - 1 then c + radius else |spectrum| - 1;
    e := 0.0;
    var b := lo;
    while b <= hi
      invariant lo <= b <= hi + 1
      invariant e == WeightedSum(spectrum, c, radius, lo, b)
    {
      var weight := 1.0 - (if b < c then c - b else b - c) as real / (radius + 1) as real;
      e := e + spectrum[b] * weight;
      b := b + 1;
    }
  }

  /**
   * Sum over octaves lo <= o < upTo of the neighbour energy at bin(note, o),
   * times octaveWeight(o), skipping centre bins outside (0, |spectrum|).
   */
  function OctaveSum(spectrum: seq<real>, bin: (nat, nat) -> int, note: nat, radius: nat,
                     octaveWeight: nat -> real, lo: nat, upTo: nat): real
    decreases upTo - lo
  {
    if upTo <= lo then 0.0
    else
      OctaveSum(spectrum, bin, note, radius, octaveWeight, lo, upTo - 1) +
      OctaveTerm(spectrum, bin, note, radius, octaveWeight, upTo - 1)
  }

  /** One octave's share: the weighted neighbour energy at its centre bin, 0 when that bin is outside. */
  function OctaveTerm(spectrum: seq<real>, bin: (nat, nat) -> int, note: nat, radius: nat,
                      octaveWeight: nat -> real, octave: nat): real
  {
    var c := bin(note, octave);
    if 0 < c < |spectrum| then NeighbourEnergy(spectrum, c, radius) * octaveWeight(octave) else 0.0
  }

  lemma {:induction false} OctaveSumNonNeg(spectrum: seq<real>, bin: (nat, nat) -> int, note: nat, radius: nat,
                                         octaveWeight: nat -> real, lo: nat, upTo: nat)
    requires AllNonNeg(spectrum)
    requires forall o :: lo <= o < upTo ==> octaveWeight(o) >= 0.0
    ensures OctaveSum(spectrum, bin, note, radius, octaveWeight, lo, upTo) >= 0.0
    decreases upTo - lo
  {
    if lo < upTo {
      OctaveSumNonNeg(spectrum, bin, note, radius, octaveWeight, lo, upTo - 1);
      var c := bin(note, upTo - 1);
      if 0 < c < |spectrum| {
        NeighbourEnergyNonNeg(spectrum, c, radius);
        assert OctaveTerm(spectrum, bin, note, radius, octaveWeight, upTo - 1) >= 0.0;
      }
    }
  }

  /** `for (let octave = lo; octave <= hi; octave++)` accumulating one note's energy. */
  method NoteEnergy(spectrum: seq<real>, bin: (nat, nat) -> int, note: nat, radius: nat,
                    octaveWeight: nat -> real, lo: nat, hi: nat) returns (e: real)
    requires lo <= hi + 1
    ensures e == OctaveSum(spectrum, bin, note, radius, octaveWeight, lo, hi + 1)
  {
    e := 0.0;
    var octave := lo;
    while octave <= hi
      invariant lo <= octave <= hi + 1
      invariant e == OctaveSum(spectrum, bin, note, radius, octaveWeight, lo, octave)
    {
      var term := OctaveEnergy(spectrum, bin, note, radius, octaveWeight, octave);
      e := e + term;
      octave := octave + 1;
    }
  }

  /** The body of the octave loop: the neighbour sum at the octave's centre bin, weighted. */
  method OctaveEnergy(spectrum: seq<real>, bin: (nat, nat) -> int, note: nat, radius: nat,
                      octaveWeight: nat -> real, octave: nat) returns (term: real)
    ensures term == OctaveTerm(spectrum, bin, note, radius, octaveWeight, octave)
  {
    var c := bin(note, octave);
    term := 0.0;
    if 0 < c < |spectrum| {
      var energy := AccumulateNeighbours(spectrum, c, radius);
      term := energy * octaveWeight(octave);
    }
  }

  /** The chroma added by one window: entry n is note n's octave sum. */
  function WindowChroma(spectrum: seq<real>, bin: (nat, nat) -> int, radius: nat,
                        octaveWeight: nat -> real, lo: nat, hi: nat): (r: seq<real>)
    ensures |r| == 12
  {
    seq(12, n requires 0 <= n < 12 => OctaveSum(spectrum, bin, n, radius, octaveWeight, lo, hi + 1))
  }

  /** Element-wise sum of two 12-entry vectors. */
  function AddChroma(a: seq<real>, b: seq<real>): (r: seq<real>)
    requires |a| == 12 && |b| == 12
    ensures |r| == 12 && forall n :: 0 <= n < 12 ==> r[n] == a[n] + b[n]
  {
    seq(12, n requires 0 <= n < 12 => a[n] + b[n])
  }

  /** `for (let note = 0; note < 12; note++) chromagram[note] += noteEnergy`. */
  method AddWindow(chroma: seq<real>, spectrum: seq<real>, bin: (nat, nat) -> int, radius: nat,
                   octaveWeight: nat -> real, lo: nat, hi: nat) returns (r: seq<real>)
    requires |chroma| == 12 && lo <= hi + 1
    ensures r == AddChroma(chroma, WindowChroma(spectrum, bin, radius, octaveWeight, lo, hi))
  {
    r := chroma;
    var note := 0;
    while note < 12
      invariant 0 <= note <= 12 && |r| == 12
      invariant forall n :: 0 <= n < note ==> r[n] == chroma[n] + WindowChroma(spectrum, bin, radius, octaveWeight, lo, hi)[n]
      invariant forall n :: note <= n < 12 ==> r[n] == chroma[n]
    {
      var e := NoteEnergy(spectrum, bin, note, radius, octaveWeight, lo, hi);
      r := r[note := r[note] + e];
      note := note + 1;
    }
  }

  const Silence: seq<real> := seq(12, n => 0.0)

  /** The chroma after the first n windows: the sum of their window chromas. */
  function Accumulated(spectra: nat -> seq<real>, bin: (nat, nat) -> int, radius: nat,
                       octaveWeight: nat -> real, lo: nat, hi: nat, n: nat): (r: seq<real>)
    ensures |r| == 12
  {
    if n == 0 then Silence
    else AddChroma(Accumulated(spectra, bin, radius, octaveWeight, lo, hi, n - 1),
                   WindowChroma(spectra(n - 1), bin, radius, octaveWeight, lo, hi))
  }

  /** Non-negative spectra give a non-negative accumulated chroma. */
  lemma {:induction false} AccumulatedNonNeg(spectra: nat -> seq<real>, bin: (nat, nat) -> int, radius: nat,
                                           octaveWeight: nat -> real, lo: nat, hi: nat, n: nat)
    requires forall w :: 0 <= w < n ==> AllNonNeg(spectra(w))
    requires forall o :: lo <= o <= hi ==> octaveWeight(o) >= 0.0
    ensures AllNonNeg(Accumulated(spectra, bin, radius, octaveWeight, lo, hi, n))
  {
    if n > 0 {
      AccumulatedNonNeg(spectra, bin, radius, octaveWeight, lo, hi, n - 1);
      WindowChromaNonNeg(spectra(n - 1), bin, radius, octaveWeight, lo, hi);
    }
  }

  /** The unit octave weight of the estimators that do not weight octaves. */
  function Unweighted(octave: nat): real { 1.0 }

  /** A window's chroma is non-negative for a non-negative spectrum and octave weights. */
  lemma WindowChromaNonNeg(spectrum: seq<real>, bin: (nat, nat) -> int, radius: nat,
                           octaveWeight: nat -> real, lo: nat, hi: nat)
    requires AllNonNeg(spectrum)
    requires forall o :: lo <= o <= hi ==> octaveWeight(o) >= 0.0
    ensures AllNonNeg(WindowChroma(spectrum, bin, radius, octaveWeight, lo, hi))
  {
    forall n | 0 <= n < 12
      ensures WindowChroma(spectrum, bin, radius, octaveWeight, lo, hi)[n] >= 0.0
    {
      OctaveSumNonNeg(spectrum, bin, n, radius, octaveWeight, lo, hi + 1);
    }
  }

  /** The chroma after `if (max > 0)` divides every entry by its maximum. */
  function MaxNormalized(c: seq<real>): seq<real>
    requires |c| > 0
  {
    if MaxOf(c) > 0.0 then Scaled(c, MaxOf(c)) else c
  }

  /** `const m = Math.max(...c); if (m > 0) for (...) c[i] /= m`. */
  method MaxNormalize(c: seq<real>) returns (r: seq<real>)
    requires |c| > 0
    ensures MaxOf(c) > 0.0 ==> r == Scaled(c, MaxOf(c))
    ensures MaxOf(c) <= 0.0 ==> r == c
  {
    var m := c[0];
    var i := 1;
    while i < |c|
      invariant 1 <= i <= |c|
      invariant m == MaxOf(c[..i])
    {
      MaxOfPrefixStep(c, i);
      m := if c[i] > m then c[i] else m;
      i := i + 1;
    }
    assert c[..|c|] == c;
    r := c;
    if m > 0.0 {
      i := 0;
      while i < |r|
        invariant 0 <= i <= |r| && |r| == |c|
        invariant forall j :: 0 <= j < i ==> r[j] == c[j] / m
        invariant forall j :: i <= j < |r| ==> r[j] == c[j]
      {
        r := r[i := r[i] / m];
        i := i + 1;
      }
      assert r == Scaled(c, m);
    }
  }

  /** The running maximum of the prefixes: one more entry replaces it only when greater. */
  lemma MaxOfPrefixStep(c: seq<real>, i: nat)
    requires 0 < i < |c|
    ensures MaxOf(c[..i + 1]) == if c[i] > MaxOf(c[..i]) then c[i] else MaxOf(c[..i])
  {
    assert c[..i + 1][..i] == c[..i];
  }

  /**
   * After max-normalisation of a non-negative vector with a positive
   * maximum, every entry lies in [0, 1] and some entry is exactly 1.
   */
  lemma MaxNormalizedRange(c: seq<real>)
    requires |c| > 0 && AllNonNeg(c) && MaxOf(c) > 0.0
    ensures forall i :: 0 <= i < |c| ==> 0.0 <= Scaled(c, MaxOf(c))[i] <= 1.0
    ensures exists i :: 0 <= i < |c| && Scaled(c, MaxOf(c))[i] == 1.0
  {
    var m := MaxOf(c);
    forall i | 0 <= i < |c| ensures 0.0 <= Scaled(c, m)[i] <= 1.0 {
      QuotientAtMostOne(c[i], m);
    }
    var k :| 0 <= k < |c| && c[k] == m;
    QuotientAtMostOne(c[k], m);
  }

  lemma QuotientAtMostOne(x: real, m: real)
    requires 0.0 <= x <= m && m > 0.0
    ensures 0.0 <= x / m <= 1.0
    ensures x == m ==> x / m == 1.0
  {
  }

  /** A vector of all zeros (or with no positive entry) is left unchanged, hence still all zero. */
  lemma ZeroMaxUnchanged(c: seq<real>)
    requires |c| > 0 && AllNonNeg(c) && MaxOf(c) <= 0.0
    ensures forall i :: 0 <= i < |c| ==> c[i] == 0.0
  {
  }
}
