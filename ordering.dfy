// Sorting a list by a comparison, as JavaScript's stable Array.prototype.sort
// does with a comparator: the order `le(a, b)` stands for `compare(a, b) <= 0`.
// The sort is a stable insertion sort; it sorts whenever `le` is total and
// transitive on the list's elements.

module Ordering {

  /** Every earlier element is `le` every later one. */
  predicate SortedBy<T>(s: seq<T>, le: (T, T) -> bool)
  {
    forall i, j :: 0 <= i < j < |s| ==> le(s[i], s[j])
  }

  /** Any two elements of the list are comparable. */
  predicate TotalOn<T(==)>(s: seq<T>, le: (T, T) -> bool)
  {
    forall a, b :: a in s && b in s ==> le(a, b) || le(b, a)
  }

  /** The order is transitive on the list's elements. */
  predicate TransitiveOn<T(==)>(s: seq<T>, le: (T, T) -> bool)
  {
    forall a, b, c :: a in s && b in s && c in s && le(a, b) && le(b, c) ==> le(a, c)
  }

  /** `x` placed before the first element it is `le`. */
  function InsertBy<T>(x: T, s: seq<T>, le: (T, T) -> bool): (r: seq<T>)
    ensures |r| == |s| + 1
    ensures multiset(r) == multiset(s) + multiset{x}
  {
    if |s| == 0 then [x]
    else if le(x, s[0]) then [x] + s
    else
      assert s == [s[0]] + s[1..];
      [s[0]] + InsertBy(x, s[1..], le)
  }

  /** The stable sort of a list. */
  function SortBy<T>(s: seq<T>, le: (T, T) -> bool): (r: seq<T>)
    ensures |r| == |s|
    ensures multiset(r) == multiset(s)
  {
    if |s| == 0 then []
    else
      assert s == [s[0]] + s[1..];
      InsertBy(s[0], SortBy(s[1..], le), le)
  }

  lemma InsertByElements<T>(x: T, s: seq<T>, le: (T, T) -> bool)
    ensures forall y :: y in InsertBy(x, s, le) <==> y == x || y in s
  {
    var r := InsertBy(x, s, le);
    forall y ensures y in r <==> y == x || y in s {
      assert y in r <==> y in multiset(r);
      assert y in s <==> y in multiset(s);
    }
  }

  /** Inserting into a sorted list keeps it sorted. */
  lemma {:induction false} InsertBySorted<T>(x: T, s: seq<T>, le: (T, T) -> bool)
    requires SortedBy(s, le)
    requires TotalOn(s + [x], le) && TransitiveOn(s + [x], le)
    ensures SortedBy(InsertBy(x, s, le), le)
  {
    if |s| > 0 {
      assert x in s + [x] && s[0] in s + [x];
      if !le(x, s[0]) {
        var t := s[1..];
        forall a | a in t + [x] ensures a in s + [x] {
          if a in t { assert a == s[1..][(Idx(t, a))]; }
        }
        InsertBySorted(x, t, le);
        InsertByElements(x, t, le);
        var r := InsertBy(x, t, le);
        forall j | 0 <= j < |r| ensures le(s[0], r[j]) {
          assert r[j] in r;
          if r[j] != x {
            var k := Idx(t, r[j]);
            assert t[k] == s[k + 1];
          }
        }
      } else {
        var r := [x] + s;
        forall i, j | 0 <= i < j < |r| ensures le(r[i], r[j]) {
          if i == 0 && j > 1 {
            assert s[0] in s + [x] && s[j - 1] in s + [x];
            assert le(s[0], s[j - 1]);
          }
        }
      }
    }
  }

  /** An index of an element of a list. */
  function Idx<T(==)>(s: seq<T>, a: T): (k: nat)
    requires a in s
    ensures k < |s| && s[k] == a
  {
    if s[0] == a then 0 else 1 + Idx(s[1..], a)
  }

  /** A total, transitive order sorts the list. */
  lemma {:induction false} SortBySorted<T>(s: seq<T>, le: (T, T) -> bool)
    requires TotalOn(s, le) && TransitiveOn(s, le)
    ensures SortedBy(SortBy(s, le), le)
  {
    if |s| > 0 {
      var t := s[1..];
      forall a | a in t ensures a in s {
        assert t[Idx(t, a)] == s[Idx(t, a) + 1];
      }
      SortBySorted(t, le);
      var u := SortBy(t, le);
      forall a | a in u + [s[0]] ensures a in s {
        if a in u {
          assert a in multiset(u);
          assert a in multiset(t);
        }
      }
      InsertBySorted(s[0], u, le);
    }
  }

  /** The sort keeps exactly the list's elements. */
  lemma SortBySameElements<T>(s: seq<T>, le: (T, T) -> bool)
    ensures forall a :: a in SortBy(s, le) <==> a in s
  {
    var r := SortBy(s, le);
    forall a ensures a in r <==> a in s {
      assert a in r <==> a in multiset(r);
      assert a in s <==> a in multiset(s);
    }
  }

  /** A list that is already sorted sorts to itself: the sort is stable. */
  lemma {:induction false} SortedSortsToItself<T>(s: seq<T>, le: (T, T) -> bool)
    requires SortedBy(s, le)
    ensures SortBy(s, le) == s
  {
    if |s| > 0 {
      SortedSortsToItself(s[1..], le);
      assert s == [s[0]] + s[1..];
    }
  }
}
