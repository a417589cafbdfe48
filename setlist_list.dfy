// The summary each card of src/components/SetlistList.tsx shows: the song
// count, the set numbers in the order JavaScript's default sort gives them,
// the songs per set, and the singular or plural wording.

module SetlistList {
  import opened Strings
  import opened Lists
  import opened Ordering
  import opened Clock
  import opened SetlistEditor

  /** The default sort's order: numbers compared as their strings. */
  function AsStrings(a: int, b: int): bool
  {
    !TextLess(IntToString(b), IntToString(a))
  }

  /** `[...new Set(songs.map(s => s.set_number))].sort()`. */
  function SetNumbersShown(songs: seq<SetlistSong>): (r: seq<int>)
    ensures multiset(r) == multiset(SetNumbers(songs))
  {
    SortBy(SetNumbers(songs), AsStrings)
  }

  /** The string order is total and transitive. */
  lemma AsStringsOrders(s: seq<int>)
    ensures TotalOn(s, AsStrings) && TransitiveOn(s, AsStrings)
  {
    forall a, b | a in s && b in s ensures AsStrings(a, b) || AsStrings(b, a) {
      if TextLess(IntToString(b), IntToString(a)) {
        TextLessIrreflexive(IntToString(a));
        if TextLess(IntToString(a), IntToString(b)) {
          TextLessTransitive(IntToString(a), IntToString(b), IntToString(a));
        }
      }
    }
    forall a, b, c | a in s && b in s && c in s && AsStrings(a, b) && AsStrings(b, c) ensures AsStrings(a, c) {
      var x, y, z := IntToString(a), IntToString(b), IntToString(c);
      if TextLess(z, x) {
        if x == y {
        } else {
          TextLessConnected(x, y);
          if y == z {
          } else {
            TextLessConnected(y, z);
            TextLessTransitive(x, y, z);
            TextLessTransitive(z, x, z);
            TextLessIrreflexive(z);
          }
        }
      }
    }
  }

  /** The shown set numbers name every set of the setlist exactly once, sorted as strings. */
  lemma SetNumbersShownOnce(songs: seq<SetlistSong>)
    ensures var r := SetNumbersShown(songs);
            Distinct(r) && SortedBy(r, AsStrings) && forall n :: n in r <==> HasSet(songs, n)
  {
    var ns := SetNumbers(songs);
    var r := SetNumbersShown(songs);
    AsStringsOrders(ns);
    SortBySorted(ns, AsStrings);
    DistinctCountsOnce(ns);
    CountsOnceDistinct(r);
    SameElements(r, ns);
  }

  lemma TenAfterTwoAsStrings()
    ensures !AsStrings(2, 10) && AsStrings(10, 2)
  {
    assert Digit(1) == '1' && Digit(0) == '0' && Digit(2) == '2';
    assert NatToString(10) == NatToString(1) + [Digit(0)];
    assert IntToString(10) == "10" && IntToString(2) == "2";
    assert TextLess("10", "2");
    TextLessIrreflexive("2");
    assert !TextLess("2", "10");
  }

  /** Sets 2 and 10 are listed as 10, 2. */
  lemma TenBeforeTwo()
    ensures SortBy([2, 10], AsStrings) == [10, 2]
  {
    TenAfterTwoAsStrings();
    assert [2, 10][1..] == [10] && [10][1..] == [];
    assert SortBy([10], AsStrings) == [10];
    assert InsertBy(2, [10], AsStrings) == [10] + InsertBy(2, [], AsStrings);
  }

  /** The per-set counts over the shown set numbers add up to the song count. */
  lemma SetCountsTotal(songs: seq<SetlistSong>)
    ensures GroupSizes(songs, SetNumbersShown(songs)) == |songs|
  {
    SetNumbersShownOnce(songs);
    GroupSizesTotal(songs, SetNumbersShown(songs));
  }

  /** `${n} song${n !== 1 ? 's' : ''}` and the same for sets. */
  function Counted(n: nat, word: string): (r: string)
  {
    NatToString(n) + " " + word + (if n != 1 then "s" else "")
  }

  /** The word is singular exactly when the count is 1. */
  lemma CountedSingularOnlyForOne(n: nat, word: string)
    ensures var r := Counted(n, word);
            var prefix := NatToString(n) + " " + word;
            (n == 1 <==> r == prefix) && (n != 1 <==> r == prefix + "s")
  {
    var prefix := NatToString(n) + " " + word;
    assert |prefix + "s"| != |prefix|;
  }
}
