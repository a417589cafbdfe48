// The bass-weighted key estimator of src/hooks/audioAnalysis/keyAnalysis.ts:
// the middle 70% of the samples, 8192-sample windows every 2048 samples, a
// chromagram over octaves 2..6 weighted towards the bass, max-normalisation,
// then an L2-normalised chroma scanned against the normalised templates.

module KeyAnalysis {
  import opened Numeric
  import opened Strings
  import opened Wrappers
  import opened Argmax
  import opened Chroma
  import opened KeyProfiles

  const FftSize: nat := 8192
  /** fftSize / 4. */
  const HopSize: nat := 2048
  /** Bins on each side of a note's centre bin, weighted 1 - |d| / 3. */
  const Radius: nat := 2

  // ------------------------------------------------------------ the slice

  /** Math.floor(data.length * 0.15). */
  function MiddleStart(length: nat): int
  {
    Floor(length as real * 0.15)
  }

  /** Math.floor(data.length * 0.85). */
  function MiddleEnd(length: nat): int
  {
    Floor(length as real * 0.85)
  }

  /** The slice bounds are ordered and inside the data, so the slice never clamps. */
  lemma MiddleBounds(length: nat)
    ensures 0 <= MiddleStart(length) <= MiddleEnd(length) <= length
  {
    var l := length as real;
    assert 0.0 <= l * 0.15 <= l * 0.85 <= l;
  }

  /** data.slice(startSample, endSample). */
  function MiddleSection(data: seq<real>): (r: seq<real>)
    ensures |r| == MiddleEnd(|data|) - MiddleStart(|data|)
  {
    MiddleBounds(|data|);
    data[MiddleStart(|data|)..MiddleEnd(|data|)]
  }

  /**
   * Math.floor((analysisData.length - fftSize) / hopSize). Negative for a
   * slice shorter than the window; the window loop then does not run.
   * Dafny's division by a positive divisor rounds down, as Math.floor does.
   */
  function NumWindows(sliceLength: nat): int
  {
    (sliceLength as int - FftSize) / HopSize
  }

  /** The windows that run: max(0, numWindows). */
  function WindowsRun(sliceLength: nat): nat
  {
    if NumWindows(sliceLength) > 0 then NumWindows(sliceLength) else 0
  }

  /**
   * Every window that runs is a full 8192 samples of the slice, and the
   * hop leaves a whole hop unused after the last one.
   */
  lemma WindowsInsideSlice(sliceLength: nat, w: nat)
    requires w < WindowsRun(sliceLength)
    ensures w * HopSize + FftSize + HopSize <= sliceLength
  {
    var n := NumWindows(sliceLength);
    assert n * HopSize <= sliceLength as int - FftSize;
    assert w * HopSize + HopSize <= n * HopSize;
  }

  /** No window runs exactly when the slice is shorter than 10240 samples. */
  lemma NoWindowWhenShort(sliceLength: nat)
    ensures WindowsRun(sliceLength) == 0 <==> sliceLength < FftSize + HopSize
  {
  }

  // ------------------------------------------------------------ the chroma

  /** `octave <= 3 ? 2.0 : (octave === 4 ? 1.5 : 1.0)`: the bass emphasis. */
  function OctaveWeight(octave: nat): (r: real)
    ensures r > 0.0
    ensures octave <= 3 ==> r == 2.0
    ensures octave == 4 ==> r == 1.5
    ensures octave > 4 ==> r == 1.0
  {
    if octave <= 3 then 2.0 else if octave == 4 then 1.5 else 1.0
  }

  /** Lower octaves never weigh less than higher ones. */
  lemma OctaveWeightDecreasing(a: nat, b: nat)
    requires a <= b
    ensures OctaveWeight(a) >= OctaveWeight(b)
  {
  }

  /**
   * The window loop: window w adds note n's weighted energy over octaves
   * 2..6 at bin(n, octave), skipping centre bins outside (0, 4096).
   * `spectrum(w)` is the magnitude spectrum of the Hann-tapered window
   * starting at sample 2048 w of the slice, and `bin(n, octave)` the
   * rounded bin of that note's frequency; the model does not compute either.
   */
  method AccumulateBassWindows(sliceLength: nat, spectrum: nat -> seq<real>, bin: (nat, nat) -> int)
    returns (chromagram: seq<real>)
    ensures chromagram == Accumulated(spectrum, bin, Radius, OctaveWeight, 2, 6, WindowsRun(sliceLength))
  {
    chromagram := Silence;
    var numWindows := NumWindows(sliceLength);
    var w := 0;
    while w < numWindows
      invariant numWindows == NumWindows(sliceLength) && 0 <= w <= WindowsRun(sliceLength)
      invariant chromagram == Accumulated(spectrum, bin, Radius, OctaveWeight, 2, 6, w)
    {
      var acc := AddWindow(chromagram, spectrum(w), bin, Radius, OctaveWeight, 2, 6);
      assert acc == Accumulated(spectrum, bin, Radius, OctaveWeight, 2, 6, w + 1);
      chromagram := acc;
      w := w + 1;
    }
  }

  /** Math.sqrt(chromagram.reduce((sum, x) => sum + x * x, 0)). */
  function ChromaNorm(c: seq<real>, sqrt: real -> real): real
  {
    sqrt(SumSq(c))
  }

  /** The chroma after `if (chromaNorm > 0) chromagram = chromagram.map(x => x / chromaNorm)`. */
  function L2Normalized(c: seq<real>, sqrt: real -> real): (r: seq<real>)
    ensures |r| == |c|
  {
    if ChromaNorm(c, sqrt) > 0.0 then Scaled(c, ChromaNorm(c, sqrt)) else c
  }

  method L2Normalize(c: seq<real>, sqrt: real -> real) returns (r: seq<real>)
    ensures r == L2Normalized(c, sqrt)
  {
    var norm := sqrt(SumSq(c));
    r := c;
    if norm > 0.0 {
      r := seq(|c|, i requires 0 <= i < |c| => c[i] / norm);
    }
  }

  /** Dividing every entry by d divides the sum of squares by d * d. */
  lemma {:induction false} SumSqScaled(c: seq<real>, d: real)
    requires d != 0.0
    ensures SumSq(Scaled(c, d)) * (d * d) == SumSq(c)
  {
    if |c| > 0 {
      var p := c[..|c| - 1];
      assert Scaled(c, d)[..|c| - 1] == Scaled(p, d);
      SumSqScaled(p, d);
      QuotientSquare(c[|c| - 1], d);
      Distribute(SumSq(Scaled(p, d)), (c[|c| - 1] / d) * (c[|c| - 1] / d), d * d);
    }
  }

  lemma QuotientSquare(x: real, d: real)
    requires d != 0.0
    ensures ((x / d) * (x / d)) * (d * d) == x * x
  {
    var q := x / d;
    assert q * d == x;
    assert (q * q) * (d * d) == (q * d) * (q * d);
  }

  lemma Distribute(a: real, b: real, m: real)
    ensures (a + b) * m == a * m + b * m
  {
  }

  /**
   * With a square root that is exact on the chroma's sum of squares, the
   * L2-normalised chroma of a non-zero chroma has unit sum of squares; a
   * zero chroma is left as it is.
   */
  lemma L2NormalizedUnit(c: seq<real>, sqrt: real -> real)
    requires SqrtLike(sqrt)
    requires ChromaNorm(c, sqrt) * ChromaNorm(c, sqrt) == SumSq(c)
    ensures SumSq(c) > 0.0 ==> SumSq(L2Normalized(c, sqrt)) == 1.0
    ensures SumSq(c) <= 0.0 ==> L2Normalized(c, sqrt) == c
  {
    SumSqNonNeg(c);
    var n := ChromaNorm(c, sqrt);
    if SumSq(c) > 0.0 {
      assert n > 0.0;
      SumSqScaled(c, n);
      var a, m := SumSq(Scaled(c, n)), n * n;
      SameProduct(a, m, SumSq(c));
      UnitFactor(a, m);
    } else {
      assert n == 0.0;
    }
  }

  lemma SameProduct(a: real, m: real, t: real)
    requires a * m == t && m == t
    ensures a * m == m
  {
  }

  lemma UnitFactor(a: real, t: real)
    requires t > 0.0 && a * t == t
    ensures a == 1.0
  {
  }

  // -------------------------------------------------------------- the key

  /** The pitch classes of a key's root, third (minor or major) and fifth. */
  datatype Triad = Triad(root: nat, third: nat, fifth: nat)

  function TriadOf(k: Key): (t: Triad)
    requires ValidKey(k)
    ensures t.root == k.root && t.third < 12 && t.fifth < 12
    ensures (t.third - t.root) % 12 == (if k.mode == Minor then 3 else 4)
    ensures (t.fifth - t.root) % 12 == 7
  {
    Triad(k.root, (k.root + (if k.mode == Minor then 3 else 4)) % 12, (k.root + 7) % 12)
  }

  /** root + 0.8 third + 0.6 fifth: the logged harmonic strength of a key's triad. */
  function HarmonicStrength(chroma: seq<real>, t: Triad): real
    requires |chroma| >= 12 && t.root < 12 && t.third < 12 && t.fifth < 12
  {
    chroma[t.root] + chroma[t.third] * 0.8 + chroma[t.fifth] * 0.6
  }

  /**
   * analyzeKeyFromEnhancedChromagram: L2-normalise the chroma, then the
   * first strict maximum from -Infinity against the normalised templates.
   * The root and mode are then read back from the key's name (indexOf of
   * its first word, includes('Minor')) to compute the harmonic strength,
   * which is only logged; `strength` is that value, read off the right
   * triad and in range.
   */
  method AnalyzeKeyFromEnhancedChromagram(chromagram: seq<real>, sqrt: real -> real)
    returns (key: string, ghost w: Option<nat>, strength: real)
    requires |chromagram| == 12 && SqrtLike(sqrt)
    ensures FirstStrictMax(CandidateScores(L2Normalized(chromagram, sqrt), NormalizedMajor(sqrt), NormalizedMinor(sqrt)), NegInfinity, w)
    ensures w.Some? && w.value < 24 && key == KeyName(Candidate(w.value)) && IsKeyName(key)
    ensures strength == HarmonicStrength(L2Normalized(chromagram, sqrt), TriadOf(Candidate(w.value)))
  {
    var chroma := L2Normalize(chromagram, sqrt);
    key, w := ScanNormalized(chroma, sqrt);
    TriadFromName(Candidate(w.value));
    var rootNote := IndexOf(NoteNames, FirstWord(key));
    var isMinor := Contains(key, "Minor");
    var third := if isMinor then (rootNote + 3) % 12 else (rootNote + 4) % 12;
    var fifth := (rootNote + 7) % 12;
    strength := chroma[rootNote] + chroma[third] * 0.8 + chroma[fifth] * 0.6;
  }

  /** Reading the root and the mode back from a key's name gives that key's triad. */
  lemma TriadFromName(k: Key)
    requires ValidKey(k)
    ensures var name := KeyName(k);
            var root := IndexOf(NoteNames, FirstWord(name));
            TriadOf(k).root == root &&
            TriadOf(k).third == (if Contains(name, "Minor") then (root + 3) % 12 else (root + 4) % 12) &&
            TriadOf(k).fifth == (root + 7) % 12
  {
    RootFromName(k);
    MinorFromName(k);
  }

  /**
   * detectKeyFromBassline over the middle section of the samples; the
   * result is the name of the first candidate with the greatest score of
   * the L2-normalised, max-normalised accumulated chroma.
   */
  method DetectKeyFromBassline(data: seq<real>, spectrum: nat -> seq<real>, bin: (nat, nat) -> int, sqrt: real -> real)
    returns (key: string, ghost chroma: seq<real>, ghost w: Option<nat>)
    requires SqrtLike(sqrt)
    ensures chroma == MaxNormalized(Accumulated(spectrum, bin, Radius, OctaveWeight, 2, 6, WindowsRun(|MiddleSection(data)|)))
    ensures FirstStrictMax(CandidateScores(L2Normalized(chroma, sqrt), NormalizedMajor(sqrt), NormalizedMinor(sqrt)), NegInfinity, w)
    ensures w.Some? && w.value < 24 && key == KeyName(Candidate(w.value)) && IsKeyName(key)
  {
    var analysisData := MiddleSection(data);
    var chromagram := AccumulateBassWindows(|analysisData|, spectrum, bin);
    chromagram := MaxNormalize(chromagram);
    chroma := chromagram;
    var strength;
    key, w, strength := AnalyzeKeyFromEnhancedChromagram(chromagram, sqrt);
  }

  /**
   * Neither normalisation changes the key: the reported key is the first
   * strict maximum of the raw accumulated chroma's scores.
   */
  lemma NormalizationKeepsKey(raw: seq<real>, sqrt: real -> real, w: Option<nat>)
    requires |raw| == 12 && SqrtLike(sqrt)
    ensures FirstStrictMax(CandidateScores(L2Normalized(MaxNormalized(raw), sqrt), NormalizedMajor(sqrt), NormalizedMinor(sqrt)), NegInfinity, w)
        <==> FirstStrictMax(CandidateScores(raw, NormalizedMajor(sqrt), NormalizedMinor(sqrt)), NegInfinity, w)
  {
    var major, minor := NormalizedMajor(sqrt), NormalizedMinor(sqrt);
    var m := MaxNormalized(raw);
    if MaxOf(raw) > 0.0 {
      ScaledChromaSameWinner(raw, major, minor, MaxOf(raw), w);
    }
    if ChromaNorm(m, sqrt) > 0.0 {
      ScaledChromaSameWinner(m, major, minor, ChromaNorm(m, sqrt), w);
    }
  }

  /** Too short an input (fewer than 10240 samples in the slice) is reported as "C Major". */
  lemma ShortInputGivesCMajor(data: seq<real>, spectrum: nat -> seq<real>, bin: (nat, nat) -> int,
                              sqrt: real -> real, w: Option<nat>)
    requires SqrtLike(sqrt) && |MiddleSection(data)| < FftSize + HopSize
    requires FirstStrictMax(CandidateScores(L2Normalized(MaxNormalized(Accumulated(spectrum, bin, Radius, OctaveWeight, 2, 6,
               WindowsRun(|MiddleSection(data)|))), sqrt), NormalizedMajor(sqrt), NormalizedMinor(sqrt)), NegInfinity, w)
    requires w.Some? && w.value < 24
    ensures KeyName(Candidate(w.value)) == "C Major"
  {
    NoWindowWhenShort(|MiddleSection(data)|);
    NormalizationKeepsKey(Silence, sqrt, w);
    ZeroChromaGivesCMajor(Silence, NormalizedMajor(sqrt), NormalizedMinor(sqrt), NegInfinity, w);
  }

  /** For non-negative spectra the accumulated chroma is non-negative; its max-normalisation lies in [0, 1]. */
  lemma BassChromaRange(spectrum: nat -> seq<real>, bin: (nat, nat) -> int, n: nat)
    requires forall w :: 0 <= w < n ==> AllNonNeg(spectrum(w))
    ensures var raw := Accumulated(spectrum, bin, Radius, OctaveWeight, 2, 6, n);
            AllNonNeg(raw) &&
            if MaxOf(raw) > 0.0 then
              (forall i :: 0 <= i < 12 ==> 0.0 <= MaxNormalized(raw)[i] <= 1.0) &&
              (exists i :: 0 <= i < 12 && MaxNormalized(raw)[i] == 1.0)
            else forall i :: 0 <= i < 12 ==> MaxNormalized(raw)[i] == 0.0
  {
    var raw := Accumulated(spectrum, bin, Radius, OctaveWeight, 2, 6, n);
    AccumulatedNonNeg(spectrum, bin, Radius, OctaveWeight, 2, 6, n);
    if MaxOf(raw) > 0.0 {
      assert MaxNormalized(raw) == Scaled(raw, MaxOf(raw));
      MaxNormalizedRange(raw);
    } else {
      ZeroMaxUnchanged(raw);
    }
  }
}
