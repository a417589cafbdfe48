// The arrangement and drag-and-drop logic of src/components/SetlistEditor.tsx:
// grouping a setlist's songs by set, ordering the sets and the songs within
// each set, and the position updates a drop sends. The updates themselves
// are writes to the database; they are returned as a list.

module SetlistEditor {
  import opened Wrappers
  import opened Lists
  import opened Ordering

  /** A song placed in a setlist (src/types/setlist.ts); the joined Song is not modelled. */
  datatype SetlistSong = SetlistSong(id: string, setlistId: string, songId: string, position: int, setNumber: int,
                                     notes: Option<string>)

  /** The songs of one set. */
  function InSet(n: int): SetlistSong -> bool
  {
    (s: SetlistSong) => s.setNumber == n
  }

  /** Some song of the list is in set n. */
  predicate HasSet(songs: seq<SetlistSong>, n: int)
  {
    exists i :: 0 <= i < |songs| && songs[i].setNumber == n
  }

  lemma HasSetAppend(songs: seq<SetlistSong>, song: SetlistSong)
    ensures forall n :: HasSet(songs + [song], n) <==> HasSet(songs, n) || n == song.setNumber
  {
    var t := songs + [song];
    assert t[|songs|].setNumber == song.setNumber;
    forall n | HasSet(songs, n) ensures HasSet(t, n) {
      var i :| 0 <= i < |songs| && songs[i].setNumber == n;
      assert t[i] == songs[i];
    }
  }

  /** The set numbers that occur, once each, in order of first occurrence. */
  function SetNumbers(songs: seq<SetlistSong>): (r: seq<int>)
    ensures forall i, j :: 0 <= i < j < |r| ==> r[i] != r[j]
    ensures forall n :: n in r <==> HasSet(songs, n)
  {
    if |songs| == 0 then []
    else
      var init := songs[..|songs| - 1];
      var n := songs[|songs| - 1].setNumber;
      assert songs == init + [songs[|songs| - 1]];
      HasSetAppend(init, songs[|songs| - 1]);
      var rest := SetNumbers(init);
      if n in rest then rest else rest + [n]
  }

  /** The groups of the reduce after it has seen `songs`. */
  ghost predicate Grouped(songs: seq<SetlistSong>, groups: map<int, seq<SetlistSong>>)
  {
    (forall n :: n in groups <==> HasSet(songs, n)) &&
    (forall n :: n in groups ==> groups[n] == Filter(songs, InSet(n)))
  }

  /** One step of the reduce: the song is pushed onto its set's list, created if missing. */
  lemma {:induction false} PushKeepsGrouped(songs: seq<SetlistSong>, groups: map<int, seq<SetlistSong>>, song: SetlistSong)
    requires Grouped(songs, groups)
    ensures var prior := if song.setNumber in groups then groups[song.setNumber] else [];
            Grouped(songs + [song], groups[song.setNumber := prior + [song]])
  {
    var t := songs + [song];
    assert t[..|t| - 1] == songs;
    HasSetAppend(songs, song);
    if song.setNumber !in groups {
      forall i | 0 <= i < |songs| ensures !InSet(song.setNumber)(songs[i]) {
        assert !HasSet(songs, song.setNumber);
      }
      FilterNone(songs, InSet(song.setNumber));
    }
  }

  /**
   * The reduce that groups the songs: every song is pushed onto the list of
   * its set number, which is created at its first song.
   */
  method GroupBySet(songs: seq<SetlistSong>) returns (groups: map<int, seq<SetlistSong>>)
    ensures forall n :: n in groups <==> n in SetNumbers(songs)
    ensures forall n :: n in groups ==> groups[n] == Filter(songs, InSet(n))
  {
    groups := map[];
    var i := 0;
    while i < |songs|
      invariant 0 <= i <= |songs|
      invariant Grouped(songs[..i], groups)
    {
      var song := songs[i];
      PushKeepsGrouped(songs[..i], groups, song);
      assert songs[..i + 1] == songs[..i] + [song];
      var prior := if song.setNumber in groups then groups[song.setNumber] else [];
      groups := groups[song.setNumber := prior + [song]];
      i := i + 1;
    }
    assert songs[..|songs|] == songs;
  }

  /** The ascending numeric order of `(a, b) => a - b`. */
  function NumberOrder(a: int, b: int): bool
  {
    a <= b
  }

  /** The order of `(a, b) => a.position - b.position`. */
  function PositionOrder(a: SetlistSong, b: SetlistSong): bool
  {
    a.position <= b.position
  }

  /** The sets in the order they are shown: the set numbers sorted numerically. */
  function SetOrder(songs: seq<SetlistSong>): (r: seq<int>)
    ensures |r| == |SetNumbers(songs)|
    ensures multiset(r) == multiset(SetNumbers(songs))
  {
    SortBy(SetNumbers(songs), NumberOrder)
  }

  /**
   * The arrangement the editor renders: the sets in ascending order, and for
   * each set its songs sorted by position (the in-place sort of each group
   * is the stable sort).
   */
  method Arrange(songs: seq<SetlistSong>) returns (sets: seq<int>, groups: map<int, seq<SetlistSong>>)
    ensures sets == SetOrder(songs)
    ensures forall n :: n in groups <==> n in sets
    ensures forall n :: n in groups ==> groups[n] == SortBy(Filter(songs, InSet(n)), PositionOrder)
  {
    groups := GroupBySet(songs);
    sets := SetOrder(songs);
    SameElements(sets, SetNumbers(songs));
    SetOrderAscending(songs);
    var i := 0;
    while i < |sets|
      invariant 0 <= i <= |sets|
      invariant SortedUpTo(songs, sets, i, groups)
    {
      SortStep(songs, sets, i, groups);
      groups := groups[sets[i] := SortBy(groups[sets[i]], PositionOrder)];
      i := i + 1;
    }
  }

  /** The groups after the sets before i have been sorted. */
  ghost predicate SortedUpTo(songs: seq<SetlistSong>, sets: seq<int>, i: nat, groups: map<int, seq<SetlistSong>>)
    requires i <= |sets|
  {
    (forall n :: n in groups <==> n in sets) &&
    (forall n :: n in groups ==>
       groups[n] == if n in sets[..i] then SortBy(Filter(songs, InSet(n)), PositionOrder) else Filter(songs, InSet(n)))
  }

  /** Sorting the group of the set at i, which no earlier step sorted. */
  lemma SortStep(songs: seq<SetlistSong>, sets: seq<int>, i: nat, groups: map<int, seq<SetlistSong>>)
    requires i < |sets| && SortedUpTo(songs, sets, i, groups)
    requires forall j, k :: 0 <= j < k < |sets| ==> sets[j] < sets[k]
    ensures sets[i] in groups
    ensures SortedUpTo(songs, sets, i + 1, groups[sets[i] := SortBy(groups[sets[i]], PositionOrder)])
  {
    assert sets[i] in sets;
    assert sets[i] !in sets[..i];
    assert forall n :: n in sets[..i + 1] <==> n in sets[..i] || n == sets[i];
  }

  /** Lists with the same multiset have the same elements. */
  lemma SameElements(a: seq<int>, b: seq<int>)
    requires multiset(a) == multiset(b)
    ensures forall n :: n in a <==> n in b
  {
    forall n ensures n in a <==> n in b {
      assert n in a <==> n in multiset(a);
      assert n in b <==> n in multiset(b);
    }
  }

  /** No element occurs twice. */
  predicate Distinct(s: seq<int>)
  {
    forall i, j :: 0 <= i < j < |s| ==> s[i] != s[j]
  }

  /** A list without repetitions counts each element at most once. */
  lemma {:induction false} DistinctCountsOnce(s: seq<int>)
    requires Distinct(s)
    ensures forall x :: multiset(s)[x] <= 1
  {
    if |s| > 0 {
      var init := s[..|s| - 1];
      assert s == init + [s[|s| - 1]];
      DistinctCountsOnce(init);
      assert s[|s| - 1] !in init;
    }
  }

  /** A list counting each element at most once has no repetitions. */
  lemma CountsOnceDistinct(s: seq<int>)
    requires forall x :: multiset(s)[x] <= 1
    ensures Distinct(s)
  {
    forall i, j | 0 <= i < j < |s| ensures s[i] != s[j] {
      assert s == s[..i] + [s[i]] + s[i + 1..j] + [s[j]] + s[j + 1..];
      assert multiset(s)[s[i]] >= 1 + multiset(s[i + 1..j] + [s[j]] + s[j + 1..])[s[i]];
    }
  }

  /** The sets are shown in strictly ascending order, each set number once. */
  lemma SetOrderAscending(songs: seq<SetlistSong>)
    ensures var r := SetOrder(songs);
            (forall i, j :: 0 <= i < j < |r| ==> r[i] < r[j]) &&
            (forall n :: n in r <==> HasSet(songs, n))
  {
    var ns := SetNumbers(songs);
    var r := SetOrder(songs);
    SortBySorted(ns, NumberOrder);
    DistinctCountsOnce(ns);
    CountsOnceDistinct(r);
    SameElements(r, ns);
  }

  /** The group a set shows: its songs sorted by position. */
  function ArrangedGroup(songs: seq<SetlistSong>, n: int): (r: seq<SetlistSong>)
    ensures |r| == Count(songs, InSet(n))
  {
    SortBy(Filter(songs, InSet(n)), PositionOrder)
  }

  /** The order by position is total and transitive. */
  lemma PositionOrderIsTotal(s: seq<SetlistSong>)
    ensures TotalOn(s, PositionOrder) && TransitiveOn(s, PositionOrder)
  {
  }

  /**
   * Each song lands in exactly the group of its set number, and each group
   * is sorted by position and holds its set's songs with their multiplicity.
   */
  lemma ArrangedGroupContents(songs: seq<SetlistSong>, n: int)
    ensures var g := ArrangedGroup(songs, n);
            SortedBy(g, PositionOrder) && multiset(g) == multiset(Filter(songs, InSet(n))) &&
            forall x :: x in g <==> x in songs && x.setNumber == n
  {
    var f := Filter(songs, InSet(n));
    PositionOrderIsTotal(f);
    SortBySorted(f, PositionOrder);
    SortBySameElements(f, PositionOrder);
  }

  /** The sizes of the groups of the listed sets, added up. */
  function GroupSizes(songs: seq<SetlistSong>, sets: seq<int>): nat
  {
    if |sets| == 0 then 0 else GroupSizes(songs, sets[..|sets| - 1]) + |ArrangedGroup(songs, sets[|sets| - 1])|
  }

  lemma {:induction false} GroupSizesOfNone(sets: seq<int>)
    ensures GroupSizes([], sets) == 0
  {
    if |sets| > 0 {
      GroupSizesOfNone(sets[..|sets| - 1]);
    }
  }

  /** One more song adds one to the group of each listed occurrence of its set. */
  lemma {:induction false} GroupSizesAppend(songs: seq<SetlistSong>, x: SetlistSong, sets: seq<int>)
    ensures GroupSizes(songs + [x], sets) == GroupSizes(songs, sets) + multiset(sets)[x.setNumber]
  {
    if |sets| > 0 {
      var init := sets[..|sets| - 1];
      var n := sets[|sets| - 1];
      assert sets == init + [n];
      GroupSizesAppend(songs, x, init);
      assert (songs + [x])[..|songs|] == songs;
      assert Filter(songs + [x], InSet(n)) == Filter(songs, InSet(n)) + if x.setNumber == n then [x] else [];
    }
  }

  /** Over a list naming every set once, the group sizes add up to the number of songs. */
  lemma {:induction false} GroupSizesTotal(songs: seq<SetlistSong>, sets: seq<int>)
    requires Distinct(sets)
    requires forall n :: HasSet(songs, n) ==> n in sets
    ensures GroupSizes(songs, sets) == |songs|
  {
    if |songs| == 0 {
      GroupSizesOfNone(sets);
    } else {
      var init := songs[..|songs| - 1];
      var x := songs[|songs| - 1];
      assert songs == init + [x];
      HasSetAppend(init, x);
      GroupSizesTotal(init, sets);
      GroupSizesAppend(init, x, sets);
      DistinctCountsOnce(sets);
      assert x.setNumber in sets;
    }
  }

  /** The groups the editor shows, over its sets, hold every song of the setlist exactly once. */
  lemma ArrangementCoversAll(songs: seq<SetlistSong>)
    ensures GroupSizes(songs, SetOrder(songs)) == |songs|
  {
    var sets := SetOrder(songs);
    SetOrderAscending(songs);
    GroupSizesTotal(songs, sets);
  }

  // Dropping a dragged song onto another song of a set.

  /** A position write: `updateSetlistSongPosition(id, setNumber, position)`. */
  datatype PositionUpdate = PositionUpdate(id: string, setNumber: int, position: int)

  /** What a drop does: nothing, throw (the set has no group), or write positions. */
  datatype DropOutcome = Cancelled | Failed | Reposition(updates: seq<PositionUpdate>)

  /** findIndex by id: the first index of a song with the id, or -1. */
  function IndexOfId(songs: seq<SetlistSong>, id: string): (r: int)
    ensures -1 <= r < |songs|
    ensures r >= 0 ==> songs[r].id == id && forall j :: 0 <= j < r ==> songs[j].id != id
    ensures r == -1 ==> forall j :: 0 <= j < |songs| ==> songs[j].id != id
  {
    if |songs| == 0 then -1
    else if songs[0].id == id then 0
    else
      var k := IndexOfId(songs[1..], id);
      if k == -1 then -1 else k + 1
  }

  /** The two splices: the element at `from` is taken out and put back in at `to`. */
  function Moved<T>(s: seq<T>, from: nat, to: nat): (r: seq<T>)
    requires from < |s| && to < |s|
    ensures |r| == |s|
  {
    var rest := s[..from] + s[from + 1..];
    rest[..to] + [s[from]] + rest[to..]
  }

  /**
   * The move is a permutation that puts the moved element at `to` and keeps
   * the others in their relative order.
   */
  lemma MovedPlaces<T>(s: seq<T>, from: nat, to: nat)
    requires from < |s| && to < |s|
    ensures var r := Moved(s, from, to);
            r[to] == s[from] && multiset(r) == multiset(s) && r[..to] + r[to + 1..] == s[..from] + s[from + 1..]
  {
    var rest := s[..from] + s[from + 1..];
    var r := Moved(s, from, to);
    assert r[..to] == rest[..to];
    assert r[to + 1..] == rest[to..];
    assert rest[..to] + rest[to..] == rest;
    calc {
      multiset(r);
      multiset(rest[..to]) + multiset{s[from]} + multiset(rest[to..]);
      multiset(rest) + multiset{s[from]};
      multiset(s[..from]) + multiset(s[from + 1..]) + multiset{s[from]};
      { assert s == s[..from] + [s[from]] + s[from + 1..]; }
      multiset(s);
    }
  }

  /** Dragging the song back from where it landed to where it was undoes the move. */
  lemma MovedBack<T>(s: seq<T>, from: nat, to: nat)
    requires from < |s| && to < |s|
    ensures Moved(Moved(s, from, to), to, from) == s
  {
    var r := Moved(s, from, to);
    MovedPlaces(s, from, to);
    var rest := s[..from] + s[from + 1..];
    assert rest[..from] == s[..from];
    assert rest[from..] == s[from + 1..];
    assert s == s[..from] + [s[from]] + s[from + 1..];
  }

  /** The writes of the loop: the songs in their new order get positions 1, 2, ... in the set. */
  function Renumbered(songs: seq<SetlistSong>, setNumber: int): (r: seq<PositionUpdate>)
    ensures |r| == |songs|
  {
    if |songs| == 0 then []
    else Renumbered(songs[..|songs| - 1], setNumber) + [PositionUpdate(songs[|songs| - 1].id, setNumber, |songs|)]
  }

  /** Song i of the new order is written at position i + 1, in the set dropped on. */
  lemma {:induction false} RenumberedPositions(songs: seq<SetlistSong>, setNumber: int)
    ensures forall i :: 0 <= i < |songs| ==> Renumbered(songs, setNumber)[i] == PositionUpdate(songs[i].id, setNumber, i + 1)
  {
    if |songs| > 0 {
      RenumberedPositions(songs[..|songs| - 1], setNumber);
    }
  }

  /** The drop handler: with a dragged song, the target and the dragged song in the set, the set is rewritten. */
  method Drop(groups: map<int, seq<SetlistSong>>, dragged: Option<string>, target: string, setNumber: int)
    returns (outcome: DropOutcome)
    ensures !TruthyId(dragged) || dragged.value == target ==> outcome == Cancelled
    ensures TruthyId(dragged) && dragged.value != target && setNumber !in groups ==> outcome == Failed
    ensures TruthyId(dragged) && dragged.value != target && setNumber in groups ==>
              var g := groups[setNumber];
              var d := IndexOfId(g, dragged.value);
              var t := IndexOfId(g, target);
              if d == -1 || t == -1 then outcome == Cancelled
              else outcome == Reposition(Renumbered(Moved(g, d, t), setNumber))
  {
    if !TruthyId(dragged) || dragged.value == target {
      return Cancelled;
    }
    if setNumber !in groups {
      return Failed;
    }
    var setlistSongs := groups[setNumber];
    var draggedIndex := IndexOfId(setlistSongs, dragged.value);
    var targetIndex := IndexOfId(setlistSongs, target);
    if draggedIndex == -1 || targetIndex == -1 {
      return Cancelled;
    }
    var reordered := Moved(setlistSongs, draggedIndex, targetIndex);
    var updates := [];
    var i := 0;
    while i < |reordered|
      invariant 0 <= i <= |reordered|
      invariant updates == Renumbered(reordered[..i], setNumber)
    {
      assert reordered[..i + 1][..i] == reordered[..i];
      updates := updates + [PositionUpdate(reordered[i].id, setNumber, i + 1)];
      i := i + 1;
    }
    assert reordered[..|reordered|] == reordered;
    return Reposition(updates);
  }

  /** `!draggedItem` is false exactly for a non-empty id. */
  predicate TruthyId(dragged: Option<string>)
  {
    dragged.Some? && dragged.value != ""
  }

  /** The songs of a set with the positions a drop writes. */
  function Repositioned(songs: seq<SetlistSong>): (r: seq<SetlistSong>)
    ensures |r| == |songs|
    ensures forall i :: 0 <= i < |r| ==> r[i] == songs[i].(position := i + 1)
  {
    seq(|songs|, i requires 0 <= i < |songs| => songs[i].(position := i + 1))
  }

  /**
   * Once the writes of a drop are applied, the set shows its songs in the
   * new order: the dragged song at the target index, the others in their
   * old relative order.
   */
  lemma DropShowsNewOrder(g: seq<SetlistSong>, d: nat, t: nat)
    requires d < |g| && t < |g|
    ensures var shown := Repositioned(Moved(g, d, t));
            SortBy(shown, PositionOrder) == shown && shown[t] == g[d].(position := t + 1)
  {
    MovedPlaces(g, d, t);
    SortedSortsToItself(Repositioned(Moved(g, d, t)), PositionOrder);
  }
}
