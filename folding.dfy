// Octave folding: the `while (bpm < lo) bpm *= 2` and `while (bpm > hi) bpm /= 2`
// loops several tempo estimators apply, and the single-step if-chains.

module Folding {

  function Pow2(k: nat): (r: real)
    ensures r >= 1.0
  {
    if k == 0 then 1.0 else 2.0 * Pow2(k - 1)
  }

  /** The value `while (b < lo) b *= 2` leaves, for a positive start. */
  function UpFold(b: real, lo: real): (r: real)
    requires b > 0.0
    decreases if b < lo then (lo / b).Floor else 0
  {
    if b >= lo then b
    else
      RatioHalved(lo, b);
      UpFold(2.0 * b, lo)
  }

  /** The value `while (b > hi) b /= 2` leaves, for a positive bound. */
  function DownFold(b: real, hi: real): (r: real)
    requires hi > 0.0
    decreases HalvingsLeft(b, hi)
  {
    if b <= hi then b
    else
      HalvedOver(b, hi);
      DownFold(b / 2.0, hi)
  }

  /** Both loops in turn: the tempo the octave folding into [lo, hi] reports. */
  function Fold(b: real, lo: real, hi: real): (r: real)
    requires b > 0.0 && hi > 0.0
  {
    DownFold(UpFold(b, lo), hi)
  }

  /** Doubling the denominator of a ratio above 1 lowers its floor, which stays non-negative. */
  lemma RatioHalved(x: real, y: real)
    requires 0.0 < y < x
    ensures 0 <= (x / (2.0 * y)).Floor < (x / y).Floor
  {
    var q := x / y;
    assert q * y == x;
    assert x / (2.0 * y) == q / 2.0 by {
      assert (q / 2.0) * (2.0 * y) == x;
    }
    var f := q.Floor;
    assert q > 1.0;
    assert f >= 1 && q < f as real + 1.0;
    assert q / 2.0 < f as real;
  }

  lemma DoubledProduct(r: real, p: real, x: real)
    requires r * p == x
    ensures r * (2.0 * p) == 2.0 * x
  {
  }

  /** A bound on the halvings `while (b > hi) b /= 2` still has to make. */
  function HalvingsLeft(b: real, hi: real): nat
    requires hi > 0.0
  {
    if b > hi then (b / hi).Floor as nat else 0
  }

  /** Halving a value above a positive bound lowers the halvings left. */
  lemma HalvedOver(b: real, hi: real)
    requires 0.0 < hi < b
    ensures HalvingsLeft(b / 2.0, hi) < HalvingsLeft(b, hi)
  {
    RatioHalved(b, hi);
    assert (b / 2.0) / hi == b / (2.0 * hi);
  }

  /** UpFold is the first b * 2^k at or above lo. */
  lemma {:induction false} UpFoldShape(b: real, lo: real) returns (k: nat)
    requires b > 0.0
    ensures UpFold(b, lo) == b * Pow2(k) && UpFold(b, lo) >= lo
    ensures k > 0 ==> UpFold(b, lo) / 2.0 < lo
    decreases if b < lo then (lo / b).Floor else 0
  {
    if b >= lo {
      k := 0;
    } else {
      RatioHalved(lo, b);
      var j := UpFoldShape(2.0 * b, lo);
      Pow2Step(b, j);
      assert 2.0 * b * Pow2(j) == b * Pow2(j + 1);
      k := j + 1;
    }
  }

  /** DownFold is the first b / 2^k at or below hi. */
  lemma {:induction false} DownFoldShape(b: real, hi: real) returns (k: nat)
    requires hi > 0.0
    ensures DownFold(b, hi) * Pow2(k) == b && DownFold(b, hi) <= hi
    ensures k > 0 ==> 2.0 * DownFold(b, hi) > hi
    ensures b > 0.0 ==> DownFold(b, hi) > 0.0
    decreases HalvingsLeft(b, hi)
  {
    if b <= hi {
      k := 0;
    } else {
      HalvedOver(b, hi);
      var j := DownFoldShape(b / 2.0, hi);
      k := DownFoldStep(b, hi, j);
    }
  }

  /** One halving of the shape induction: halving b first adds one to the count. */
  lemma DownFoldStep(b: real, hi: real, j: nat) returns (k: nat)
    requires 0.0 < hi < b
    requires DownFold(b / 2.0, hi) * Pow2(j) == b / 2.0 && DownFold(b / 2.0, hi) <= hi
    requires j > 0 ==> 2.0 * DownFold(b / 2.0, hi) > hi
    ensures k == j + 1
    ensures DownFold(b, hi) * Pow2(k) == b && DownFold(b, hi) <= hi && 2.0 * DownFold(b, hi) > hi
    ensures DownFold(b, hi) > 0.0
  {
    var r := DownFold(b, hi);
    assert r == DownFold(b / 2.0, hi);
    var p := Pow2(j);
    assert Pow2(j + 1) == 2.0 * p;
    DoubledProduct(r, p, b / 2.0);
    if j == 0 {
      assert r == b / 2.0;
    }
    assert r * p > 0.0;
    k := j + 1;
  }

  /**
   * For hi >= 2 lo the fold lands in [lo, hi] on an octave of b, leaves a b
   * already in [lo, hi] alone, and is the first octave the loops reach: one
   * more doubling, or one less halving, would leave the range.
   */
  lemma FoldFacts(b: real, lo: real, hi: real) returns (up: nat, down: nat)
    requires b > 0.0 && 0.0 < lo && 2.0 * lo <= hi
    ensures var r := Fold(b, lo, hi);
            lo <= r <= hi && OctaveOf(r, b) && (lo <= b <= hi ==> r == b) &&
            r * Pow2(down) == b * Pow2(up) &&
            (up > 0 ==> UpFold(b, lo) / 2.0 < lo) && (down > 0 ==> 2.0 * r > hi)
  {
    up := UpFoldShape(b, lo);
    down := DownFoldShape(UpFold(b, lo), hi);
    Folded(b, lo, hi, UpFold(b, lo), up, Fold(b, lo, hi), down);
  }

  /**
   * The fold pins the octave: a rounded 40 folds into [70, 180] as 80 and
   * not 160, 320 into [80, 160] as 160 and not 80, 300 into [70, 180] as
   * 150 and not 75.
   */
  lemma FoldPinsOctave()
    ensures Fold(40.0, 70.0, 180.0) == 80.0
    ensures Fold(320.0, 80.0, 160.0) == 160.0
    ensures Fold(300.0, 70.0, 180.0) == 150.0
  {
    assert UpFold(40.0, 70.0) == UpFold(80.0, 70.0) == 80.0;
    assert DownFold(80.0, 180.0) == 80.0;
    assert UpFold(320.0, 80.0) == 320.0;
    assert DownFold(320.0, 160.0) == DownFold(160.0, 160.0) == 160.0;
    assert UpFold(300.0, 70.0) == 300.0;
    assert DownFold(300.0, 180.0) == DownFold(150.0, 180.0) == 150.0;
  }

  /**
   * while (r < lo) r *= 2, for a positive start: the result is the first
   * bpm * 2^k that reaches lo.
   */
  method FoldUp(bpm: real, lo: real) returns (r: real, ghost k: nat)
    requires bpm > 0.0
    ensures r == UpFold(bpm, lo)
    ensures r == bpm * Pow2(k)
    ensures r >= lo
    ensures k > 0 ==> r / 2.0 < lo
  {
    r := bpm;
    while r < lo
      invariant r >= bpm
      invariant UpFold(r, lo) == UpFold(bpm, lo)
      decreases ((lo - r) / bpm).Floor
    {
      UpStep(bpm, lo, r);
      r := 2.0 * r;
    }
    k := UpFoldShape(bpm, lo);
  }

  /** One doubling of FoldUp: UpFold is unchanged, the measure falls and the bounds hold. */
  lemma UpStep(bpm: real, lo: real, r: real)
    requires 0.0 < bpm <= r < lo
    ensures UpFold(2.0 * r, lo) == UpFold(r, lo)
    ensures ((lo - 2.0 * r) / bpm).Floor < ((lo - r) / bpm).Floor
    ensures ((lo - r) / bpm).Floor >= 0
    ensures 2.0 * r >= bpm
  {
    ShrinkingQuotient(lo - r, r, bpm);
    assert lo - r - r == lo - 2.0 * r;
  }

  /**
   * while (r > hi) r /= 2, for a positive bound: the result is the first
   * bpm / 2^k that is at most hi.
   */
  method FoldDown(bpm: real, hi: real) returns (r: real, ghost k: nat)
    requires hi > 0.0
    ensures r == DownFold(bpm, hi)
    ensures r * Pow2(k) == bpm
    ensures r <= hi
    ensures k > 0 ==> 2.0 * r > hi
    ensures bpm > 0.0 ==> r > 0.0
  {
    r := bpm;
    while r > hi
      invariant DownFold(r, hi) == DownFold(bpm, hi)
      decreases (2.0 * (r - hi) / hi).Floor
    {
      DownStep(hi, r);
      r := r / 2.0;
    }
    k := DownFoldShape(bpm, hi);
  }

  /** One halving of FoldDown: DownFold is unchanged and the measure falls. */
  lemma DownStep(hi: real, r: real)
    requires 0.0 < hi < r
    ensures DownFold(r / 2.0, hi) == DownFold(r, hi)
    ensures (2.0 * (r / 2.0 - hi) / hi).Floor < (2.0 * (r - hi) / hi).Floor
    ensures (2.0 * (r - hi) / hi).Floor >= 0
  {
    ShrinkingQuotient(2.0 * (r - hi), r, hi);
    assert 2.0 * (r - hi) - r == 2.0 * (r / 2.0 - hi);
  }

  /** Removing at least d from x lowers the floor of x / d by at least one. */
  lemma ShrinkingQuotient(x: real, step: real, d: real)
    requires d > 0.0 && step >= d
    ensures ((x - step) / d).Floor < (x / d).Floor
    ensures x > 0.0 ==> (x / d).Floor >= 0
  {
    assert (x - step) / d == x / d - step / d;
    assert step / d >= 1.0;
  }

  lemma Pow2Step(b: real, k: nat)
    ensures b * Pow2(k + 1) == 2.0 * (b * Pow2(k))
  {
  }

  /** Folding up into [lo, ..) and then down into (.., hi] lands in [lo, hi] when hi >= 2 lo. */
  lemma FoldedWithin(up: real, down: real, k: nat, lo: real, hi: real)
    requires 0.0 < lo && 2.0 * lo <= hi
    requires up >= lo && down <= hi && down * Pow2(k) == up
    requires k > 0 ==> 2.0 * down > hi
    ensures lo <= down <= hi
  {
  }

  /** a is b moved by whole octaves: a * 2^down == b * 2^up for some up, down. */
  ghost predicate OctaveOf(a: real, b: real)
  {
    exists up: nat, down: nat :: a * Pow2(down) == b * Pow2(up)
  }

  /** A folding of b up by `up` octaves and down by `down` octaves to a is an octave move. */
  lemma OctaveWitness(a: real, b: real, up: nat, down: nat)
    requires a * Pow2(down) == b * Pow2(up)
    ensures OctaveOf(a, b)
  {
  }

  lemma Pow2AtLeastTwo(k: nat)
    requires k > 0
    ensures Pow2(k) >= 2.0
  {
  }

  /** A start already at or above lo is left alone by the doubling loop. */
  lemma FoldUpIdle(bpm: real, lo: real, r: real, k: nat)
    requires bpm >= lo > 0.0 && r == bpm * Pow2(k)
    requires k > 0 ==> r / 2.0 < lo
    ensures k == 0 && r == bpm
  {
    if k > 0 {
      Pow2AtLeastTwo(k);
      MulAtLeast(bpm, Pow2(k), 2.0);
    }
  }

  /** A positive start already at or below hi is left alone by the halving loop. */
  lemma FoldDownIdle(bpm: real, hi: real, r: real, k: nat)
    requires 0.0 < bpm <= hi && r > 0.0 && r * Pow2(k) == bpm
    requires k > 0 ==> 2.0 * r > hi
    ensures k == 0 && r == bpm
  {
    if k > 0 {
      Pow2AtLeastTwo(k);
      MulAtLeast(r, Pow2(k), 2.0);
    }
  }

  /**
   * Folding b up into [lo, ..) and down into (.., hi], for hi >= 2 lo, lands
   * in [lo, hi] on an octave of b, and leaves a b already in [lo, hi] alone.
   */
  lemma Folded(b: real, lo: real, hi: real, up: real, ku: nat, down: real, kd: nat)
    requires b > 0.0 && 0.0 < lo && 2.0 * lo <= hi
    requires up == b * Pow2(ku) && up >= lo && (ku > 0 ==> up / 2.0 < lo)
    requires down * Pow2(kd) == up && down <= hi && (kd > 0 ==> 2.0 * down > hi) && down > 0.0
    ensures lo <= down <= hi && OctaveOf(down, b)
    ensures lo <= b <= hi ==> down == b
  {
    FoldedWithin(up, down, kd, lo, hi);
    OctaveWitness(down, b, ku, kd);
    if lo <= b <= hi {
      FoldUpIdle(b, lo, up, ku);
      FoldDownIdle(up, hi, down, kd);
    }
  }

  lemma MulAtLeast(x: real, p: real, q: real)
    requires x > 0.0 && p >= q
    ensures x * p >= x * q
  {
    assert x * p - x * q == x * (p - q);
  }
}
