// The key-compatible playlist builder of src/components/PlaylistCreator.tsx:
// the circle-of-fifths table, the songs a key selects, the keys offered,
// and the guard on creating a playlist.

module PlaylistCreator {
  import opened Wrappers
  import opened Strings
  import opened Songs
  import opened Lists
  import Ordering

  /** The compatibility table: for eight roots, the keys a playlist in that root may use. */
  const Compatibility: map<string, seq<string>> := map[
    "C" := ["C", "F", "G", "Am", "Dm", "Em"],
    "G" := ["G", "C", "D", "Em", "Am", "Bm"],
    "D" := ["D", "G", "A", "Bm", "Em", "F#m"],
    "A" := ["A", "D", "E", "F#m", "Bm", "C#m"],
    "E" := ["E", "A", "B", "C#m", "F#m", "G#m"],
    "B" := ["B", "E", "F#", "G#m", "C#m", "D#m"],
    "F#" := ["F#", "B", "C#", "D#m", "G#m", "A#m"],
    "F" := ["F", "Bb", "C", "Dm", "Gm", "Am"]]

  /** getCompatibleKeys: the table row, or the key alone. */
  function CompatibleKeys(key: string): (r: seq<string>)
    ensures key in Compatibility ==> r == Compatibility[key]
    ensures key !in Compatibility ==> r == [key]
  {
    if key in Compatibility then Compatibility[key] else [key]
  }

  /** The table has exactly the eight roots, each row has six keys, and each row starts with its own root. */
  lemma CompatibilityRows()
    ensures Compatibility.Keys == {"C", "G", "D", "A", "E", "B", "F#", "F"}
    ensures forall k :: k in Compatibility ==> |Compatibility[k]| == 6 && Compatibility[k][0] == k
  {
  }

  /** Every key is compatible with itself. */
  lemma CompatibleWithItself(key: string)
    ensures key in CompatibleKeys(key)
  {
    if key in Compatibility {
      CompatibilityRows();
      assert Compatibility[key][0] == key;
    }
  }

  /** Full key names such as "C Major" or "A minor" are not in the table and match only themselves. */
  lemma FullNamesAreNotRoots()
    ensures CompatibleKeys("C Major") == ["C Major"] && CompatibleKeys("A minor") == ["A minor"]
  {
    CompatibilityRows();
  }

  /** The song's key is truthy and includes one of the compatible keys. */
  predicate FitsKey(song: Song, compatible: seq<string>)
  {
    TruthyString(song.key) && exists c :: c in compatible && Contains(song.key.value, c)
  }

  function Fits(key: string): Song -> bool
  {
    (song: Song) => FitsKey(song, CompatibleKeys(key))
  }

  /** handleKeySelect: the ids of the fitting songs, in library order. */
  function SelectedFor(songs: seq<Song>, key: string): (r: seq<string>)
    ensures |r| <= |songs|
  {
    Ids(Filter(songs, Fits(key)))
  }

  /** The selection is exactly the ids of the songs whose key includes a compatible key. */
  lemma SelectedForExact(songs: seq<Song>, key: string)
    ensures forall id :: id in SelectedFor(songs, key) <==>
                         exists song :: song in songs && song.id == id && FitsKey(song, CompatibleKeys(key))
  {
    var f := Filter(songs, Fits(key));
    var r := SelectedFor(songs, key);
    forall id ensures id in r <==> exists song :: song in songs && song.id == id && FitsKey(song, CompatibleKeys(key)) {
      if id in r {
        var k :| 0 <= k < |r| && r[k] == id;
        assert f[k] in f;
      }
      if song :| song in songs && song.id == id && FitsKey(song, CompatibleKeys(key)) {
        assert song in f;
        var k := Ordering.Idx(f, song);
        assert r[k] == id;
      }
    }
  }

  /** Matching is by substring: a song whose key includes the chosen key is selected, so 'C' selects a 'C#m' song. */
  lemma SelectsKeysIncludingIt(songs: seq<Song>, key: string, i: nat)
    requires i < |songs| && TruthyString(songs[i].key) && Contains(songs[i].key.value, key)
    ensures songs[i].id in SelectedFor(songs, key)
  {
    CompatibleWithItself(key);
    SelectedForExact(songs, key);
    assert songs[i] in songs;
  }

  /** availableKeys: each truthy key once, in order of first occurrence. */
  function AvailableKeys(songs: seq<Song>): (r: seq<string>)
    ensures forall i, j :: 0 <= i < j < |r| ==> r[i] != r[j]
    ensures forall k :: k in r <==> exists i :: 0 <= i < |songs| && songs[i].key == Some(k) && k != ""
  {
    if |songs| == 0 then []
    else
      var init := songs[..|songs| - 1];
      var rest := AvailableKeys(init);
      var last := songs[|songs| - 1];
      assert forall i :: 0 <= i < |init| ==> init[i] == songs[i];
      if TruthyString(last.key) && last.key.value !in rest then rest + [last.key.value] else rest
  }

  /** The dialog's state. */
  datatype CreatorState = CreatorState(isOpen: bool, playlistName: string, selectedKey: string, selectedSongs: seq<string>)

  /**
   * handleKeySelect: the key is remembered and the selection becomes
   * exactly the songs fitting it; the dialog and the name stay as they were.
   */
  function KeySelected(s: CreatorState, songs: seq<Song>, key: string): (r: CreatorState)
    ensures r.isOpen == s.isOpen && r.playlistName == s.playlistName && r.selectedKey == key
    ensures |r.selectedSongs| <= |songs|
    ensures forall id :: id in r.selectedSongs <==>
                         exists song :: song in songs && song.id == id && FitsKey(song, CompatibleKeys(key))
  {
    SelectedForExact(songs, key);
    s.(selectedKey := key, selectedSongs := SelectedFor(songs, key))
  }

  /** The call `onCreatePlaylist(name, songIds)`. */
  datatype PlaylistRequest = PlaylistRequest(name: string, songIds: seq<string>)

  /** handleCreatePlaylist: the call it makes, if any, and the next state. */
  function CreatePlaylist(s: CreatorState): (r: (Option<PlaylistRequest>, CreatorState))
  {
    if s.playlistName != "" && |s.selectedSongs| > 0 then
      (Some(PlaylistRequest(s.playlistName, s.selectedSongs)), CreatorState(false, "", "", []))
    else (None, s)
  }

  /**
   * A playlist is created exactly when it has a name and a song, with that
   * name and those songs, and the dialog then closes and clears; otherwise
   * nothing changes.
   */
  lemma CreatePlaylistCases(s: CreatorState)
    ensures var (request, next) := CreatePlaylist(s);
            (request.Some? <==> s.playlistName != "" && |s.selectedSongs| > 0) &&
            (request.Some? ==> request.value == PlaylistRequest(s.playlistName, s.selectedSongs) &&
                               next == CreatorState(false, "", "", [])) &&
            (request.None? ==> next == s)
  {
  }

  /** Creating again right after a creation does nothing: the selection is gone. */
  lemma CreateTwiceCreatesOnce(s: CreatorState)
    ensures CreatePlaylist(CreatePlaylist(s).1).0.None?
  {
  }
}
