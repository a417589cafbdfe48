// The running-best scans of the estimators: `if (x > best) { best = x; at = i }`
// over a sequence of scores, starting from -Infinity or from a finite value.

module Argmax {
  import opened Wrappers

  /** The initial best score: -Infinity, or a finite value. */
  datatype Bound = NegInfinity | Finite(value: real)

  predicate Beats(x: real, b: Bound)
  {
    b.NegInfinity? || x > b.value
  }

  /**
   * w is what a left-to-right scan with `if (score > best)` keeps: the first
   * index of the greatest score, if that score beats init; None if no score
   * beats init.
   */
  predicate FirstStrictMax(scores: seq<real>, init: Bound, w: Option<nat>)
  {
    match w
    case None => forall c :: 0 <= c < |scores| ==> !Beats(scores[c], init)
    case Some(k) =>
      k < |scores| && Beats(scores[k], init) &&
      (forall c :: 0 <= c < k ==> scores[c] < scores[k]) &&
      (forall c :: k < c < |scores| ==> scores[c] <= scores[k])
  }

  function BestSoFar(scores: seq<real>, init: Bound, w: Option<nat>): Bound
    requires w.Some? ==> w.value < |scores|
  {
    if w.None? then init else Finite(scores[w.value])
  }

  /** One more scan step keeps FirstStrictMax. */
  lemma FirstStrictMaxStep(scores: seq<real>, init: Bound, w: Option<nat>, x: real)
    requires FirstStrictMax(scores, init, w)
    ensures var w' := if Beats(x, BestSoFar(scores, init, w)) then Some(|scores|) else w;
            FirstStrictMax(scores + [x], init, w')
  {
    var s := scores + [x];
    if Beats(x, BestSoFar(scores, init, w)) {
      forall c | 0 <= c < |scores| ensures s[c] < x {
        if w.None? {
          assert !Beats(scores[c], init);
        } else {
          assert scores[c] <= scores[w.value];
        }
      }
    } else {
      if w.Some? {
        assert s[w.value] == scores[w.value];
      }
    }
  }

  /** The scan's result is uniquely determined by the scores and init. */
  lemma FirstStrictMaxUnique(scores: seq<real>, init: Bound, w1: Option<nat>, w2: Option<nat>)
    requires FirstStrictMax(scores, init, w1) && FirstStrictMax(scores, init, w2)
    ensures w1 == w2
  {
  }

  /** Starting from -Infinity, the first score always beats the bound, so some index wins. */
  lemma NegInfinityAlwaysWins(scores: seq<real>, w: Option<nat>)
    requires |scores| > 0 && FirstStrictMax(scores, NegInfinity, w)
    ensures w.Some?
  {
    assert Beats(scores[0], NegInfinity);
  }

  /** x < y exactly when x / d < y / d, for a positive divisor d. */
  lemma DivideMonotone(x: real, y: real, d: real)
    requires d > 0.0
    ensures x < y <==> x / d < y / d
    ensures x <= y <==> x / d <= y / d
  {
    assert x == (x / d) * d && y == (y / d) * d;
  }

  /**
   * Dividing every score by the same positive d changes no comparison, so
   * the scan from -Infinity keeps the same winner.
   */
  lemma FirstStrictMaxDivided(scores: seq<real>, divided: seq<real>, d: real, w: Option<nat>)
    requires d > 0.0 && |divided| == |scores|
    requires forall c :: 0 <= c < |scores| ==> divided[c] == scores[c] / d
    ensures FirstStrictMax(divided, NegInfinity, w) <==> FirstStrictMax(scores, NegInfinity, w)
  {
    if w.Some? && w.value < |scores| {
      var k := w.value;
      forall c | 0 <= c < |scores| ensures (scores[c] < scores[k] <==> divided[c] < divided[k])
                                        && (scores[c] <= scores[k] <==> divided[c] <= divided[k]) {
        DivideMonotone(scores[c], scores[k], d);
      }
    }
  }
}
