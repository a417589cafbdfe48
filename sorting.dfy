// Ascending sort of a sequence of reals (Array.prototype.sort with the
// comparator (a, b) => a - b, the stable sort of Ordering) and the median
// the estimators take from it.

module Sorting {
  import opened Ordering

  /** Each element is at most its successor. */
  predicate Sorted(s: seq<real>)
  {
    forall i :: 0 < i < |s| ==> s[i - 1] <= s[i]
  }

  /** The comparator (a, b) => a - b: a may come before b. */
  function Ascending(a: real, b: real): bool
  {
    a <= b
  }

  /** intervals.sort((a, b) => a - b): an ascending permutation of s. */
  function Sort(s: seq<real>): (r: seq<real>)
    ensures Sorted(r)
    ensures multiset(r) == multiset(s)
    ensures |r| == |s|
  {
    var r := SortBy(s, Ascending);
    SortBySorted(s, Ascending);
    assert forall i :: 0 < i < |r| ==> Ascending(r[i - 1], r[i]);
    r
  }

  /** intervals.sort(...)[Math.floor(intervals.length / 2)]: the upper median. */
  function Median(s: seq<real>): (m: real)
    requires |s| > 0
    ensures m in multiset(s)
  {
    var t := Sort(s);
    assert t[|t| / 2] in multiset(t);
    t[|s| / 2]
  }

  /** Every element of s lies strictly between lo and hi, so its median does too. */
  lemma MedianWithin(s: seq<real>, lo: real, hi: real)
    requires |s| > 0
    requires forall i :: 0 <= i < |s| ==> lo < s[i] < hi
    ensures lo < Median(s) < hi
  {
    var m := Median(s);
    assert m in s by {
      assert m in multiset(s);
    }
  }

  /** In a sorted sequence the first element is the least and the last the greatest. */
  lemma SortedEnds(s: seq<real>)
    requires Sorted(s) && |s| > 0
    ensures forall i :: 0 <= i < |s| ==> s[0] <= s[i] <= s[|s| - 1]
  {
    forall i | 0 <= i < |s| ensures s[0] <= s[i] <= s[|s| - 1] {
      SortedMonotone(s, 0, i);
      SortedMonotone(s, i, |s| - 1);
    }
  }

  lemma {:induction false} SortedMonotone(s: seq<real>, i: nat, j: nat)
    requires Sorted(s) && i <= j < |s|
    ensures s[i] <= s[j]
    decreases j - i
  {
    if i < j {
      SortedMonotone(s, i, j - 1);
    }
  }

  /** Sorting keeps exactly the same elements. */
  lemma SortSameElements(s: seq<real>)
    ensures forall x :: x in Sort(s) <==> x in s
  {
    var t := Sort(s);
    forall x ensures x in t <==> x in s {
      assert x in t <==> x in multiset(t);
      assert x in s <==> x in multiset(s);
    }
  }
}
