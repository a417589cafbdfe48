// The decision logic of src/hooks/audioAnalysis/essentiaProcessor.ts around
// the Essentia.js algorithms, whose results are inputs here: the octave
// folding of RhythmExtractor2013's or PercivalBpmEstimator's bpm, the
// conversion of the Key algorithm's key and scale into a key name, and the
// HPCP fallback scored against the raw Krumhansl-Schmuckler templates.

module EssentiaProcessor {
  import opened Numeric
  import opened Strings
  import opened Wrappers
  import opened Argmax
  import opened Folding
  import opened KeyProfiles

  const DefaultTempo: real := 120.0

  /** What an Essentia call gave: it threw, it gave no usable field, or a value. */
  datatype Outcome<T> = Threw | Missing | Value(value: T)

  /** `audioData.length > maxSamples ? slice(0, maxSamples) : audioData` with 30 seconds. */
  function AnalysisData(data: seq<real>, sampleRate: nat): (r: seq<real>)
    ensures |r| == Min(|data|, sampleRate * 30) && r == data[..|r|]
  {
    if |data| > sampleRate * 30 then data[..sampleRate * 30] else data
  }

  // --------------------------------------------------------------- tempo

  /**
   * The guard as written: `bpm && bpm > 0` on the unrounded value. It lets
   * values in (0, 0.5) through, which Math.round turns into 0.
   */
  predicate GuardAsWritten(bpm: real) { bpm > 0.0 }

  /** The guard the folding loops need: Math.round(bpm) >= 1. */
  predicate GuardCorrected(bpm: real) { Round(bpm) >= 1 }

  /**
   * `while (bpm < 70) bpm *= 2` from a rounded 0 never ends: every
   * doubling of 0 is still 0, below 70.
   */
  lemma GuardAsWrittenAdmitsEndlessLoop()
    ensures GuardAsWritten(0.25) && Round(0.25) == 0
    ensures forall k: nat :: Round(0.25) as real * Pow2(k) < 70.0
    ensures !GuardCorrected(0.25)
  {
  }

  /** The corrected guard accepts exactly the as-written guard's values from 0.5 on. */
  lemma GuardsAgreeFromOneHalf(bpm: real)
    ensures GuardCorrected(bpm) <==> bpm >= 0.5
    ensures bpm >= 0.5 ==> (GuardAsWritten(bpm) <==> GuardCorrected(bpm))
  {
  }

  /**
   * `while (bpm < 70) bpm *= 2; while (bpm > 180) bpm /= 2;` and the clamp
   * to [60, 200], for a rounded bpm of at least 1: the loops end in
   * [70, 180], so the clamp never acts, and a value already in [70, 180]
   * is returned unchanged.
   */
  method FoldEssentiaBpm(bpm: int) returns (tempo: real)
    requires bpm >= 1
    ensures tempo == Fold(bpm as real, 70.0, 180.0)
    ensures 70.0 <= tempo <= 180.0
    ensures OctaveOf(tempo, bpm as real)
    ensures 70 <= bpm <= 180 ==> tempo == bpm as real
  {
    var up, ku := FoldUp(bpm as real, 70.0);
    var down, kd := FoldDown(up, 180.0);
    Folded(bpm as real, 70.0, 180.0, up, ku, down, kd);
    tempo := Clamp(down, 60.0, 200.0);
    assert tempo == down;
  }

  /** Which estimate analyzeTempoWithEssentia reports. */
  datatype TempoSource = Rhythm | Percival | Default

  /**
   * The source choice: a thrown RhythmExtractor2013 ends in 120 at once; a
   * usable rhythm bpm is folded; otherwise a usable Percival estimate is;
   * otherwise, or if the estimator throws, 120.
   */
  function TempoSourceOf(rhythm: Outcome<real>, percival: Outcome<real>): (r: TempoSource)
    ensures rhythm.Threw? ==> r == Default
    ensures r == Rhythm <==> rhythm.Value? && GuardCorrected(rhythm.value)
    ensures r == Percival ==> percival.Value? && GuardCorrected(percival.value)
    ensures !rhythm.Threw? && !(rhythm.Value? && GuardCorrected(rhythm.value)) && percival.Value? && GuardCorrected(percival.value) ==>
              r == Percival
  {
    if rhythm.Threw? then Default
    else if rhythm.Value? && GuardCorrected(rhythm.value) then Rhythm
    else if percival.Value? && GuardCorrected(percival.value) then Percival
    else Default
  }

  /**
   * analyzeTempoWithEssentia with the corrected guard. `rhythm` and
   * `percival` stand for the two estimators' bpm.
   */
  method AnalyzeTempoWithEssentia(rhythm: Outcome<real>, percival: Outcome<real>) returns (tempo: real)
    ensures TempoSourceOf(rhythm, percival) == Default ==> tempo == DefaultTempo
    ensures TempoSourceOf(rhythm, percival) == Rhythm ==> tempo == Fold(Round(rhythm.value) as real, 70.0, 180.0)
    ensures TempoSourceOf(rhythm, percival) == Percival ==> tempo == Fold(Round(percival.value) as real, 70.0, 180.0)
    ensures 70.0 <= tempo <= 180.0
  {
    if rhythm.Threw? {
      return DefaultTempo;
    }
    if rhythm.Value? && GuardCorrected(rhythm.value) {
      tempo := FoldEssentiaBpm(Round(rhythm.value));
      return;
    }
    if percival.Value? && GuardCorrected(percival.value) {
      tempo := FoldEssentiaBpm(Round(percival.value));
      return;
    }
    tempo := DefaultTempo;
  }

  /** A missing or non-positive bpm from both estimators gives 120. */
  lemma NoPositiveEstimateGives120(rhythm: Outcome<real>, percival: Outcome<real>)
    requires rhythm.Value? ==> rhythm.value <= 0.0
    requires percival.Value? ==> percival.value <= 0.0
    ensures TempoSourceOf(rhythm, percival) == Default
  {
  }

  // ----------------------------------------------------------------- key

  /** key.charAt(0).toUpperCase() + key.slice(1). */
  function Capitalized(key: string): (r: string)
    ensures |r| == |key|
    ensures |key| > 0 ==> r[0] == UpperChar(key[0]) && r[1..] == key[1..]
  {
    if |key| == 0 then "" else [UpperChar(key[0])] + key[1..]
  }

  /** `${key} ${scale}` with scale mapped to "Major" exactly for "major", else "Minor". */
  function ConvertedKey(key: string, scale: string): (r: string)
  {
    Capitalized(key) + " " + (if scale == "major" then "Major" else "Minor")
  }

  /** A lower-case note name from Essentia becomes the estimators' own key name. */
  lemma ConvertedMatchesKeyName(k: Key, key: string, scale: string)
    requires ValidKey(k) && |key| > 0
    requires Capitalized(key) == NoteNames[k.root]
    requires scale == (if k.mode == Major then "major" else "minor")
    ensures ConvertedKey(key, scale) == KeyName(k)
  {
  }

  /**
   * analyzeKeyFromChroma: the first strict maximum of the 24 raw-template
   * scores, with initial best -1 and initial key "C Major".
   */
  method AnalyzeKeyFromChroma(chroma: seq<real>) returns (key: string, ghost w: Option<nat>)
    requires |chroma| >= 12
    ensures FirstStrictMax(CandidateScores(chroma, MajorProfile, MinorProfile), Finite(-1.0), w)
    ensures w.Some? ==> w.value < 24
    ensures key == KeyName(KeyOf(w)) && IsKeyName(key)
  {
    key, w := ScanRaw(chroma, Finite(-1.0));
  }

  /** When no score exceeds -1 the initial "C Major" stands. */
  lemma LowScoresGiveCMajor(chroma: seq<real>, w: Option<nat>)
    requires |chroma| >= 12
    requires FirstStrictMax(CandidateScores(chroma, MajorProfile, MinorProfile), Finite(-1.0), w)
    requires forall c :: 0 <= c < 24 ==> CandidateScore(chroma, MajorProfile, MinorProfile, c) <= -1.0
    ensures KeyName(KeyOf(w)) == "C Major"
  {
  }

  /** The key string is the Key algorithm's when it gave both fields, else the HPCP fallback's. */
  datatype KeySource = FromKeyAlgorithm | FromHpcp | KeyDefault

  /** The Key algorithm's result counts when both key and scale are non-empty strings. */
  predicate UsableKey(result: Outcome<(string, string)>)
  {
    result.Value? && |result.value.0| > 0 && |result.value.1| > 0
  }

  function KeySourceOf(keyResult: Outcome<(string, string)>, hpcp: Outcome<seq<real>>): KeySource
  {
    if UsableKey(keyResult) then FromKeyAlgorithm
    else if hpcp.Value? && |hpcp.value| >= 12 then FromHpcp
    else KeyDefault
  }

  /**
   * analyzeKeyWithEssentia. `keyResult` stands for the Key algorithm's
   * (key, scale) and `hpcp` for the HPCP vector; a throw from either is
   * caught and falls through to the next step.
   */
  method AnalyzeKeyWithEssentia(keyResult: Outcome<(string, string)>, hpcp: Outcome<seq<real>>)
    returns (key: string, ghost source: KeySource, ghost w: Option<nat>)
    ensures source == KeySourceOf(keyResult, hpcp)
    ensures source == FromKeyAlgorithm ==> key == ConvertedKey(keyResult.value.0, keyResult.value.1)
    ensures source == FromHpcp ==>
              FirstStrictMax(CandidateScores(hpcp.value, MajorProfile, MinorProfile), Finite(-1.0), w) &&
              key == KeyName(KeyOf(w))
    ensures source != FromKeyAlgorithm ==> IsKeyName(key)
    ensures source == KeyDefault ==> key == "C Major"
  {
    source := KeySourceOf(keyResult, hpcp);
    w := None;
    if keyResult.Value? {
      var (k, scale) := keyResult.value;
      if |k| > 0 && |scale| > 0 {
        var first := Capitalized(k);
        var mode := if scale == "major" then "Major" else "Minor";
        return first + " " + mode, source, w;
      }
    }
    if hpcp.Value? && |hpcp.value| >= 12 {
      key, w := AnalyzeKeyFromChroma(hpcp.value);
      return;
    }
    KeyNameIsKeyName(CMajor);
    key := "C Major";
  }
}
