// Krumhansl-Schmuckler key scoring, shared by every key estimator of the
// repository: 24 candidate keys (root ascending, major before minor), each
// scored by the correlation of the chroma vector with a rotated profile,
// and the first candidate whose score strictly beats the running best wins.

module KeyProfiles {
  import opened Numeric
  import opened Strings
  import opened Wrappers
  import opened Argmax

  const NoteNames: seq<string> := ["C", "C#", "D", "D#", "E", "F", "F#", "G", "G#", "A", "A#", "B"]

  const MajorProfile: seq<real> := [6.35, 2.23, 3.48, 2.33, 4.38, 4.09, 2.52, 5.19, 2.39, 3.66, 2.29, 2.88]
  const MinorProfile: seq<real> := [6.33, 2.68, 3.52, 5.38, 2.60, 3.53, 2.54, 4.75, 3.98, 2.69, 3.34, 3.17]

  datatype Mode = Major | Minor

  /** A key: a pitch-class root in [0, 12) and a mode. */
  datatype Key = Key(root: nat, mode: Mode)

  predicate ValidKey(k: Key) { k.root < 12 }

  /** The string every estimator returns: "<note> Major" or "<note> Minor". */
  function KeyName(k: Key): string
    requires ValidKey(k)
  {
    NoteNames[k.root] + (if k.mode == Major then " Major" else " Minor")
  }

  const CMajor: Key := Key(0, Major)

  /** The 24 names a key estimator can produce. */
  ghost predicate IsKeyName(s: string)
  {
    exists k: Key :: ValidKey(k) && KeyName(k) == s
  }

  lemma KeyNameIsKeyName(k: Key)
    requires ValidKey(k)
    ensures IsKeyName(KeyName(k))
  {
  }

  /** Distinct keys have distinct names, so the name identifies the key. */
  lemma KeyNameInjective(k1: Key, k2: Key)
    requires ValidKey(k1) && ValidKey(k2) && KeyName(k1) == KeyName(k2)
    ensures k1 == k2
  {
    RootFromName(k1);
    RootFromName(k2);
    MinorFromName(k1);
    MinorFromName(k2);
  }

  lemma NoSpaceInNoteNames()
    ensures forall r :: 0 <= r < 12 ==> ' ' !in NoteNames[r]
  {
  }

  lemma NoteNamesDistinct(a: nat, b: nat)
    requires a < 12 && b < 12 && NoteNames[a] == NoteNames[b]
    ensures a == b
  {
  }

  /**
   * noteNames.indexOf(name.split(' ')[0]) recovers the root of a key name.
   */
  lemma RootFromName(k: Key)
    requires ValidKey(k)
    ensures IndexOf(NoteNames, FirstWord(KeyName(k))) == k.root
  {
    NoSpaceInNoteNames();
    var tail := if k.mode == Major then "Major" else "Minor";
    assert KeyName(k) == NoteNames[k.root] + " " + tail;
    FirstWordOfPrefixed(NoteNames[k.root], tail);
    var r := IndexOf(NoteNames, NoteNames[k.root]);
    NoteNamesDistinct(r, k.root);
  }

  /** name.includes('Minor') holds exactly for the minor keys. */
  lemma MinorFromName(k: Key)
    requires ValidKey(k)
    ensures Contains(KeyName(k), "Minor") <==> k.mode == Minor
  {
    var l := |NoteNames[k.root]|;
    if k.mode == Minor {
      assert OccursAt(KeyName(k), "Minor", l + 1);
    } else {
      var name := KeyName(k);
      assert forall j :: 0 <= j < |name| ==> name[j] != 'i';
      forall i | 0 <= i <= |name| - 5 ensures !OccursAt(name, "Minor", i) {
        assert name[i + 1] != 'i';
      }
    }
  }

  /** Sum over i < n of chroma[(i + root) % 12] * profile[i]. */
  function PartialScore(chroma: seq<real>, profile: seq<real>, root: nat, n: nat): real
    requires |chroma| >= 12 && |profile| >= 12 && n <= 12
  {
    if n == 0 then 0.0
    else PartialScore(chroma, profile, root, n - 1) + chroma[(n - 1 + root) % 12] * profile[n - 1]
  }

  /** The correlation of the chroma with the profile rotated to root. */
  function Score(chroma: seq<real>, profile: seq<real>, root: nat): real
    requires |chroma| >= 12 && |profile| >= 12
  {
    PartialScore(chroma, profile, root, 12)
  }

  /** The candidate keys in the order they are tried: C major, C minor, C# major, ... */
  function Candidate(c: nat): (k: Key)
    requires c < 24
    ensures ValidKey(k)
  {
    Key(c / 2, if c % 2 == 0 then Major else Minor)
  }

  /** Candidate c's score. */
  function CandidateScore(chroma: seq<real>, major: seq<real>, minor: seq<real>, c: nat): real
    requires |chroma| >= 12 && |major| >= 12 && |minor| >= 12 && c < 24
  {
    Score(chroma, if c % 2 == 0 then major else minor, c / 2)
  }

  function CandidateScores(chroma: seq<real>, major: seq<real>, minor: seq<real>): (r: seq<real>)
    requires |chroma| >= 12 && |major| >= 12 && |minor| >= 12
    ensures |r| == 24
    ensures forall c :: 0 <= c < 24 ==> r[c] == CandidateScore(chroma, major, minor, c)
  {
    seq(24, c requires 0 <= c < 24 => CandidateScore(chroma, major, minor, c))
  }

  /** The key the scan reports: the winner, or the default "C Major". */
  function KeyOf(w: Option<nat>): (k: Key)
    requires w.Some? ==> w.value < 24
    ensures ValidKey(k)
  {
    if w.None? then CMajor else Candidate(w.value)
  }

  /** The rotated score, accumulated as the inner `for (let i = 0; i < 12; i++)` loop does. */
  method RotatedScore(chroma: seq<real>, profile: seq<real>, root: nat) returns (score: real)
    requires |chroma| >= 12 && |profile| >= 12
    ensures score == Score(chroma, profile, root)
  {
    score := 0.0;
    var i := 0;
    while i < 12
      invariant 0 <= i <= 12
      invariant score == PartialScore(chroma, profile, root, i)
    {
      var noteIndex := (i + root) % 12;
      score := score + chroma[noteIndex] * profile[i];
      i := i + 1;
    }
  }

  /**
   * The 24-candidate loop: for each root, the major score, then the minor
   * score, each replacing the best only when strictly greater.
   */
  method KeyArgmax(chroma: seq<real>, major: seq<real>, minor: seq<real>, init: Bound)
    returns (winner: Option<nat>, key: Key)
    requires |chroma| >= 12 && |major| >= 12 && |minor| >= 12
    ensures FirstStrictMax(CandidateScores(chroma, major, minor), init, winner)
    ensures winner.Some? ==> winner.value < 24
    ensures key == KeyOf(winner) && ValidKey(key)
  {
    ghost var scores := CandidateScores(chroma, major, minor);
    var best := init;
    winner := None;
    var root := 0;
    while root < 12
      invariant 0 <= root <= 12
      invariant ScanState(scores, 2 * root, init, winner, best)
    {
      var majorScore := RotatedScore(chroma, major, root);
      assert majorScore == scores[2 * root];
      ScanStateStep(scores, 2 * root, init, winner, best, majorScore);
      var beats := Beats(majorScore, best);
      winner := if beats then Some(2 * root) else winner;
      best := if beats then Finite(majorScore) else best;
      var minorScore := RotatedScore(chroma, minor, root);
      assert minorScore == scores[2 * root + 1];
      ScanStateStep(scores, 2 * root + 1, init, winner, best, minorScore);
      beats := Beats(minorScore, best);
      winner := if beats then Some(2 * root + 1) else winner;
      best := if beats then Finite(minorScore) else best;
      root := root + 1;
    }
    assert scores[..24] == scores;
    key := KeyOf(winner);
  }

  /** What the scan keeps after the first c candidates: the first strict maximum and its score. */
  ghost predicate ScanState(scores: seq<real>, c: nat, init: Bound, winner: Option<nat>, best: Bound)
  {
    c <= |scores| && (winner.Some? ==> winner.value < c) &&
    FirstStrictMax(scores[..c], init, winner) && best == BestSoFar(scores[..c], init, winner)
  }

  /** Trying candidate c, which replaces the best only when strictly greater, keeps ScanState. */
  lemma ScanStateStep(scores: seq<real>, c: nat, init: Bound, winner: Option<nat>, best: Bound, x: real)
    requires ScanState(scores, c, init, winner, best) && c < |scores| && x == scores[c]
    ensures var beats := Beats(x, best);
            ScanState(scores, c + 1, init, if beats then Some(c) else winner, if beats then Finite(x) else best)
  {
    FirstStrictMaxStep(scores[..c], init, winner, x);
    assert scores[..c] + [x] == scores[..c + 1];
    if winner.Some? {
      assert scores[..c + 1][winner.value] == scores[..c][winner.value];
    }
  }

  /** A chroma of zeros scores 0 for every candidate. */
  lemma {:induction false} ZeroChromaScoresZero(chroma: seq<real>, profile: seq<real>, root: nat, n: nat)
    requires |chroma| >= 12 && |profile| >= 12 && n <= 12
    requires forall i :: 0 <= i < 12 ==> chroma[i] == 0.0
    ensures PartialScore(chroma, profile, root, n) == 0.0
  {
    if n > 0 {
      ZeroChromaScoresZero(chroma, profile, root, n - 1);
    }
  }

  /**
   * With an all-zero chroma every score ties at 0: from -Infinity the scan
   * keeps the first candidate, C major; from a bound of 0 or more nothing
   * wins and the default is "C Major" as well.
   */
  lemma ZeroChromaGivesCMajor(chroma: seq<real>, major: seq<real>, minor: seq<real>, init: Bound, w: Option<nat>)
    requires |chroma| >= 12 && |major| >= 12 && |minor| >= 12
    requires forall i :: 0 <= i < 12 ==> chroma[i] == 0.0
    requires FirstStrictMax(CandidateScores(chroma, major, minor), init, w)
    requires w.Some? ==> w.value < 24
    ensures KeyOf(w) == CMajor
  {
    var scores := CandidateScores(chroma, major, minor);
    forall c | 0 <= c < 24 ensures scores[c] == 0.0 {
      ZeroChromaScoresZero(chroma, if c % 2 == 0 then major else minor, c / 2, 12);
    }
    if w.Some? {
      assert !(scores[0] < scores[w.value]);
    }
  }

  /** Scores are linear in the profile: scaling it by 1/d scales every score by 1/d. */
  lemma {:induction false} PartialScoreScaled(chroma: seq<real>, profile: seq<real>, d: real, root: nat, n: nat)
    requires |chroma| >= 12 && |profile| >= 12 && n <= 12 && d != 0.0
    ensures PartialScore(chroma, Scaled(profile, d), root, n) == PartialScore(chroma, profile, root, n) / d
  {
    if n > 0 {
      PartialScoreScaled(chroma, profile, d, root, n - 1);
      DivStep(PartialScore(chroma, profile, root, n - 1), chroma[(n - 1 + root) % 12], profile[n - 1], d);
    }
  }

  /** Math.sqrt(template.reduce((sum, x) => sum + x * x, 0)): the L2 norm of a profile. */
  function NormOf(profile: seq<real>, sqrt: real -> real): real
  {
    sqrt(SumSq(profile))
  }

  /** Both profiles have a positive norm, so dividing by it is defined. */
  lemma ProfileNormsPositive(sqrt: real -> real)
    requires SqrtLike(sqrt)
    ensures NormOf(MajorProfile, sqrt) > 0.0 && NormOf(MinorProfile, sqrt) > 0.0
  {
    SumSqAtLeast(MajorProfile, 0);
    SumSqAtLeast(MinorProfile, 0);
  }

  /** The major profile divided by its norm. */
  function NormalizedMajor(sqrt: real -> real): (r: seq<real>)
    requires SqrtLike(sqrt)
    ensures |r| == 12
    ensures NormOf(MajorProfile, sqrt) > 0.0 && forall i :: 0 <= i < 12 ==> r[i] == MajorProfile[i] / NormOf(MajorProfile, sqrt)
  {
    ProfileNormsPositive(sqrt);
    Scaled(MajorProfile, NormOf(MajorProfile, sqrt))
  }

  /** The minor profile divided by its norm. */
  function NormalizedMinor(sqrt: real -> real): (r: seq<real>)
    requires SqrtLike(sqrt)
    ensures |r| == 12
    ensures NormOf(MinorProfile, sqrt) > 0.0 && forall i :: 0 <= i < 12 ==> r[i] == MinorProfile[i] / NormOf(MinorProfile, sqrt)
  {
    ProfileNormsPositive(sqrt);
    Scaled(MinorProfile, NormOf(MinorProfile, sqrt))
  }

  /** `for (let i = 0; i < 12; i++) template[i] /= norm`. */
  method DivideTemplate(template: seq<real>, norm: real) returns (r: seq<real>)
    requires norm != 0.0
    ensures r == Scaled(template, norm)
  {
    r := template;
    var i := 0;
    while i < |r|
      invariant 0 <= i <= |r| && |r| == |template|
      invariant forall j :: 0 <= j < i ==> r[j] == template[j] / norm
      invariant forall j :: i <= j < |r| ==> r[j] == template[j]
    {
      r := r[i := r[i] / norm];
      i := i + 1;
    }
  }

  /**
   * Template normalisation followed by the -Infinity scan: the winner
   * always exists, so the result is the name of the first candidate with
   * the greatest normalised score.
   */
  method ScanNormalized(chroma: seq<real>, sqrt: real -> real) returns (name: string, ghost w: Option<nat>)
    requires |chroma| >= 12 && SqrtLike(sqrt)
    ensures FirstStrictMax(CandidateScores(chroma, NormalizedMajor(sqrt), NormalizedMinor(sqrt)), NegInfinity, w)
    ensures w.Some? && w.value < 24
    ensures name == KeyName(Candidate(w.value)) && IsKeyName(name)
  {
    ProfileNormsPositive(sqrt);
    var major := DivideTemplate(MajorProfile, NormOf(MajorProfile, sqrt));
    var minor := DivideTemplate(MinorProfile, NormOf(MinorProfile, sqrt));
    var key;
    w, key := KeyArgmax(chroma, major, minor, NegInfinity);
    NegInfinityAlwaysWins(CandidateScores(chroma, major, minor), w);
    name := KeyName(key);
    KeyNameIsKeyName(key);
  }

  /** The unnormalised scan of a given initial best, as the Meyda and Essentia paths run it. */
  method ScanRaw(chroma: seq<real>, init: Bound) returns (name: string, ghost w: Option<nat>)
    requires |chroma| >= 12
    ensures FirstStrictMax(CandidateScores(chroma, MajorProfile, MinorProfile), init, w)
    ensures w.Some? ==> w.value < 24
    ensures name == KeyName(KeyOf(w)) && IsKeyName(name)
  {
    var key;
    w, key := KeyArgmax(chroma, MajorProfile, MinorProfile, init);
    name := KeyName(key);
    KeyNameIsKeyName(key);
  }

  /** Scores are linear in the chroma too: scaling it by 1/d scales every score by 1/d. */
  lemma {:induction false} PartialScoreChromaScaled(chroma: seq<real>, profile: seq<real>, d: real, root: nat, n: nat)
    requires |chroma| >= 12 && |profile| >= 12 && n <= 12 && d != 0.0
    ensures PartialScore(Scaled(chroma, d), profile, root, n) == PartialScore(chroma, profile, root, n) / d
  {
    if n > 0 {
      PartialScoreChromaScaled(chroma, profile, d, root, n - 1);
      var i := (n - 1 + root) % 12;
      DivStep(PartialScore(chroma, profile, root, n - 1), profile[n - 1], chroma[i], d);
      assert Scaled(chroma, d)[i] * profile[n - 1] == profile[n - 1] * (chroma[i] / d);
    }
  }

  /**
   * Dividing the chroma by a positive number (the max- or L2-normalisation
   * of the estimators) never changes which key the -Infinity scan reports.
   */
  lemma ScaledChromaSameWinner(chroma: seq<real>, major: seq<real>, minor: seq<real>, d: real, w: Option<nat>)
    requires |chroma| >= 12 && |major| >= 12 && |minor| >= 12 && d > 0.0
    ensures FirstStrictMax(CandidateScores(Scaled(chroma, d), major, minor), NegInfinity, w)
        <==> FirstStrictMax(CandidateScores(chroma, major, minor), NegInfinity, w)
  {
    var raw := CandidateScores(chroma, major, minor);
    var divided := CandidateScores(Scaled(chroma, d), major, minor);
    forall c | 0 <= c < 24 ensures divided[c] == raw[c] / d {
      PartialScoreChromaScaled(chroma, if c % 2 == 0 then major else minor, d, c / 2, 12);
    }
    FirstStrictMaxDivided(raw, divided, d, w);
  }
}
