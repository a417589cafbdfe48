// The choices src/components/AddSongToSetlistModal.tsx computes: which
// songs can be added, the suggested set and position, the set selector's
// options and the request the form submits.

module AddSongToSetlist {
  import opened Wrappers
  import opened Strings
  import opened Songs
  import opened Lists
  import opened JsText
  import opened SetlistEditor

  /** The song is already in the setlist. */
  predicate IsAdded(setlist: seq<SetlistSong>, songId: string)
  {
    exists i :: 0 <= i < |setlist| && setlist[i].songId == songId
  }

  /** The title, artist or album includes the search term, ignoring case. */
  predicate MatchesTerm(song: Song, term: string)
  {
    var t := Lower(term);
    Contains(Lower(song.title), t) || Contains(Lower(song.artist), t) || Contains(Lower(song.album), t)
  }

  /** The filter callback: not yet added, and matching the term. */
  function IsCandidate(setlist: seq<SetlistSong>, term: string): Song -> bool
  {
    (song: Song) => !IsAdded(setlist, song.id) && MatchesTerm(song, term)
  }

  /** The songs offered for selection, in the library's order. */
  function Candidates(songs: seq<Song>, setlist: seq<SetlistSong>, term: string): (r: seq<Song>)
    ensures |r| <= |songs|
  {
    Filter(songs, IsCandidate(setlist, term))
  }

  /**
   * The offered songs are exactly the library songs not in the setlist
   * that match the term; an empty term matches every song.
   */
  lemma CandidatesExact(songs: seq<Song>, setlist: seq<SetlistSong>, term: string)
    ensures forall x :: x in Candidates(songs, setlist, term) <==> x in songs && !IsAdded(setlist, x.id) && MatchesTerm(x, term)
    ensures term == "" ==> forall x :: x in Candidates(songs, setlist, term) <==> x in songs && !IsAdded(setlist, x.id)
  {
    if term == "" {
      forall x: Song ensures MatchesTerm(x, term) {
        ContainsEmpty(Lower(x.title));
      }
    }
  }

  /** A song of the setlist is never offered again. */
  lemma CandidatesExcludeAdded(songs: seq<Song>, setlist: seq<SetlistSong>, term: string, i: nat)
    requires i < |setlist|
    ensures forall x :: x in Candidates(songs, setlist, term) ==> x.id != setlist[i].songId
  {
  }

  /** `Math.max(0, ...existingSets)`: the highest set number, and at least 0. */
  function MaxSet(setlist: seq<SetlistSong>): (r: int)
    ensures r >= 0
    ensures forall i :: 0 <= i < |setlist| ==> setlist[i].setNumber <= r
    ensures r == 0 || exists i :: 0 <= i < |setlist| && setlist[i].setNumber == r
  {
    if |setlist| == 0 then 0
    else
      var rest := MaxSet(setlist[..|setlist| - 1]);
      var n := setlist[|setlist| - 1].setNumber;
      assert forall i :: 0 <= i < |setlist| - 1 ==> setlist[..|setlist| - 1][i] == setlist[i];
      if n > rest then n else rest
  }

  /** The set suggested for the new song: 1 for an empty setlist, else the highest set. */
  function SuggestedSet(setlist: seq<SetlistSong>): (r: int)
  {
    if |setlist| == 0 then 1 else MaxSet(setlist)
  }

  /** An empty setlist suggests set 1; otherwise the suggestion is at least every set number. */
  lemma SuggestedSetCases(setlist: seq<SetlistSong>)
    ensures |setlist| == 0 ==> SuggestedSet(setlist) == 1
    ensures |setlist| > 0 ==> SuggestedSet(setlist) == MaxSet(setlist) &&
                              forall i :: 0 <= i < |setlist| ==> setlist[i].setNumber <= SuggestedSet(setlist)
    ensures |setlist| > 0 && setlist[0].setNumber >= 1 ==>
              exists i :: 0 <= i < |setlist| && setlist[i].setNumber == SuggestedSet(setlist)
  {
  }

  /** The songs of the set the selector names: set_number === parseInt(setNumber). */
  function InChosenSet(setNumber: string): SetlistSong -> bool
  {
    (s: SetlistSong) => Num(s.setNumber) == ParseInt(setNumber)
  }

  /** `Math.max(0, ...positions)`. */
  function MaxPosition(songs: seq<SetlistSong>): (r: int)
    ensures r >= 0
    ensures forall i :: 0 <= i < |songs| ==> songs[i].position <= r
  {
    if |songs| == 0 then 0
    else
      var rest := MaxPosition(songs[..|songs| - 1]);
      var p := songs[|songs| - 1].position;
      assert forall i :: 0 <= i < |songs| - 1 ==> songs[..|songs| - 1][i] == songs[i];
      if p > rest then p else rest
  }

  /** The position suggested in the chosen set: one past its highest position. */
  function SuggestedPosition(setlist: seq<SetlistSong>, setNumber: string): (r: int)
  {
    MaxPosition(Filter(setlist, InChosenSet(setNumber))) + 1
  }

  /** The suggested position is at least 1 and comes after every song of the chosen set. */
  lemma SuggestedPositionAfterAll(setlist: seq<SetlistSong>, setNumber: string)
    ensures SuggestedPosition(setlist, setNumber) >= 1
    ensures forall s :: s in setlist && Num(s.setNumber) == ParseInt(setNumber) ==> s.position < SuggestedPosition(setlist, setNumber)
  {
    var chosen := Filter(setlist, InChosenSet(setNumber));
    forall s | s in setlist && Num(s.setNumber) == ParseInt(setNumber)
      ensures s.position < SuggestedPosition(setlist, setNumber)
    {
      assert s in chosen;
      var k := Ordering.Idx(chosen, s);
      assert chosen[k].position <= MaxPosition(chosen);
    }
  }

  /** The call `addSongToSetlist(setlist.id, song.id, parseInt(setNumber), finalPosition)`. */
  datatype AddRequest = AddRequest(setlistId: string, songId: string, setNumber: Number, position: Number)

  /** handleSubmit: nothing without a selected song; a typed position wins over the suggestion. */
  function Submission(setlistId: string, setlist: seq<SetlistSong>, selected: Option<Song>, setNumber: string,
                      position: string): (r: Option<AddRequest>)
    ensures r.None? <==> selected.None?
    ensures r.Some? ==> r.value.setlistId == setlistId && r.value.songId == selected.value.id
    ensures r.Some? ==> r.value.setNumber == ParseInt(setNumber)
    ensures r.Some? && position != "" ==> r.value.position == ParseInt(position)
  {
    if selected.None? then None
    else
      var finalPosition := if position != "" then ParseInt(position) else Num(SuggestedPosition(setlist, setNumber));
      Some(AddRequest(setlistId, selected.value.id, ParseInt(setNumber), finalPosition))
  }

  /** With no position typed, the song is submitted behind every song of the chosen set. */
  lemma SubmissionAppendsByDefault(setlistId: string, setlist: seq<SetlistSong>, selected: Option<Song>, setNumber: string)
    requires selected.Some?
    ensures var r := Submission(setlistId, setlist, selected, setNumber, "");
            r.Some? && r.value.position.Num? && r.value.position.value >= 1 &&
            forall s :: s in setlist && Num(s.setNumber) == r.value.setNumber ==> s.position < r.value.position.value
  {
    SuggestedPositionAfterAll(setlist, setNumber);
  }

  /** The set selector's values: sets 1 .. maxSet + 2. */
  function SetOptions(maxSet: nat): (r: seq<int>)
    ensures |r| == maxSet + 2
  {
    seq(maxSet + 2, i => i + 1)
  }

  /** The selector offers every existing set from 1 up, and at least one set beyond the highest. */
  lemma SetOptionsCover(setlist: seq<SetlistSong>)
    ensures var options := SetOptions(MaxSet(setlist));
            (forall i :: 0 <= i < |options| ==> options[i] == i + 1) &&
            (forall i :: 0 <= i < |setlist| && setlist[i].setNumber >= 1 ==> setlist[i].setNumber in options) &&
            MaxSet(setlist) + 1 in options && MaxSet(setlist) + 2 in options
  {
    var options := SetOptions(MaxSet(setlist));
    forall i | 0 <= i < |setlist| && setlist[i].setNumber >= 1 ensures setlist[i].setNumber in options {
      assert options[setlist[i].setNumber - 1] == setlist[i].setNumber;
    }
    assert options[MaxSet(setlist)] == MaxSet(setlist) + 1;
    assert options[MaxSet(setlist) + 1] == MaxSet(setlist) + 2;
  }

  /**
   * The song count the option for set i + 1 shows, as written: below maxSet
   * every option shows the size of the currently chosen set; the others say
   * "(new)" (None).
   */
  function OptionCountAsWritten(setlist: seq<SetlistSong>, setNumber: string, i: nat): (r: Option<nat>)
    ensures r.Some? <==> i < MaxSet(setlist)
  {
    if i < MaxSet(setlist) then Some(Count(setlist, InChosenSet(setNumber))) else None
  }

  /** A setlist with two songs in set 1 and one in set 2. */
  const TwoSets := [SetlistSong("a", "l", "x", 1, 1, None), SetlistSong("b", "l", "y", 2, 1, None),
                    SetlistSong("c", "l", "z", 1, 2, None)]

  lemma TwoSetsChosenFirst()
    ensures Count(TwoSets, InChosenSet("1")) == 2
  {
    var a, b, c := TwoSets[0], TwoSets[1], TwoSets[2];
    assert ParseInt("1") == Num(1) by {
      ParseIntOfDigits("1");
      assert DigitsValue("1") == 1;
    }
    assert TwoSets[..2] == [a, b] && [a, b][..1] == [a] && [a][..0] == [];
    assert Filter([a], InChosenSet("1")) == [a];
    assert Filter([a, b], InChosenSet("1")) == [a, b];
  }

  lemma TwoSetsSecond()
    ensures Count(TwoSets, InSet(2)) == 1 && MaxSet(TwoSets) == 2
  {
    var a, b, c := TwoSets[0], TwoSets[1], TwoSets[2];
    assert TwoSets[..2] == [a, b] && [a, b][..1] == [a] && [a][..0] == [];
    FilterNone([a, b], InSet(2));
    assert MaxSet([a]) == 1 && MaxSet([a, b]) == 1;
  }

  /** With set 1 chosen, the option for set 2 claims two songs where set 2 has one. */
  lemma OptionCountAsWrittenMiscounts()
    ensures OptionCountAsWritten(TwoSets, "1", 1) == Some(2) && OptionCount(TwoSets, 1) == Some(1)
  {
    TwoSetsChosenFirst();
    TwoSetsSecond();
  }

  /** The count the option for set i + 1 evidently means: the songs in that set. */
  function OptionCount(setlist: seq<SetlistSong>, i: nat): (r: Option<nat>)
    ensures r.Some? <==> i < MaxSet(setlist)
    ensures r.Some? ==> r.value == |ArrangedGroup(setlist, i + 1)|
  {
    if i < MaxSet(setlist) then Some(Count(setlist, InSet(i + 1))) else None
  }
}
