// The player state of src/hooks/useAgentPlayerState.ts: the current song,
// whether it plays, volume, time and the lyrics panel, and how next and
// previous step through the song list with Array.findIndex and the
// JavaScript remainder.

module AgentPlayerState {
  import opened Wrappers
  import opened Songs

  /** Array.findIndex on the song ids: the first index with that id, or -1. */
  function FindIndex(songs: seq<Song>, id: string): (r: int)
    ensures -1 <= r < |songs|
    ensures r >= 0 ==> songs[r].id == id && forall j :: 0 <= j < r ==> songs[j].id != id
    ensures r == -1 ==> forall j :: 0 <= j < |songs| ==> songs[j].id != id
    ensures r == -1 <==> !HasId(songs, id)
    decreases |songs|
  {
    if |songs| == 0 then -1
    else if songs[0].id == id then 0
    else
      var k := FindIndex(songs[1..], id);
      if k == -1 then -1 else k + 1
  }

  /** With distinct ids, the index of the song at k is k. */
  lemma FindIndexOfDistinct(songs: seq<Song>, k: nat)
    requires DistinctIds(songs) && k < |songs|
    ensures FindIndex(songs, songs[k].id) == k
  {
    var r := FindIndex(songs, songs[k].id);
    assert r != -1 by {
      assert songs[k].id == songs[k].id;
    }
  }

  lemma SmallRemainder(x: int, n: int)
    requires 0 <= x < n
    ensures x % n == x
  {
  }

  lemma WholeRemainder(n: int)
    requires n > 0
    ensures n % n == 0
  {
  }

  lemma WrapRemainder(y: int, n: int)
    requires 0 <= y < n
    ensures (y + n) % n == y
  {
    var q := (y + n) / n;
    var m := (y + n) % n;
    assert y + n == q * n + m;
    assert (q - 1) * n == y - m;
    assert -n < y - m < n;
  }

  /**
   * JavaScript's `%`, which truncates toward zero: the result takes the
   * sign of the dividend (a -0 result indexes like 0).
   */
  function JsRemainder(a: int, n: int): (r: int)
    requires n > 0
    ensures -n < r < n
    ensures a >= 0 ==> r == a % n
    ensures a <= 0 ==> r <= 0
  {
    if a >= 0 then a % n else -((-a) % n)
  }

  /** The index playNextSong moves to: (findIndex + 1) % length. */
  function NextIndex(songs: seq<Song>, currentId: string): (r: nat)
    requires |songs| > 0
    ensures r < |songs|
  {
    JsRemainder(FindIndex(songs, currentId) + 1, |songs|)
  }

  /** The index playPreviousSong moves to: (findIndex - 1 + length) % length. */
  function PrevIndex(songs: seq<Song>, currentId: string): (r: nat)
    requires |songs| > 0
    ensures r < |songs|
  {
    var a := FindIndex(songs, currentId) - 1 + |songs|;
    assert a >= -1;
    JsRemainder(a, |songs|)
  }

  /** A song at index i steps to i + 1 and i - 1, wrapping around the list. */
  lemma StepsFromPresent(songs: seq<Song>, currentId: string, i: nat)
    requires i < |songs| && FindIndex(songs, currentId) == i
    ensures NextIndex(songs, currentId) == if i + 1 == |songs| then 0 else i + 1
    ensures PrevIndex(songs, currentId) == if i == 0 then |songs| - 1 else i - 1
  {
    var n := |songs|;
    if i + 1 == n {
      WholeRemainder(n);
    } else {
      SmallRemainder(i + 1, n);
    }
    if i == 0 {
      SmallRemainder(n - 1, n);
    } else {
      WrapRemainder(i - 1, n);
    }
  }

  /**
   * A current song missing from the list makes next go to the first song
   * and previous to index n - 2 (the first song when the list has one).
   */
  lemma StepsFromMissing(songs: seq<Song>, currentId: string)
    requires |songs| > 0 && !HasId(songs, currentId)
    ensures NextIndex(songs, currentId) == 0
    ensures |songs| >= 2 ==> PrevIndex(songs, currentId) == |songs| - 2
    ensures |songs| == 1 ==> PrevIndex(songs, currentId) == 0
  {
    SmallRemainder(0, |songs|);
    if |songs| >= 2 {
      SmallRemainder(|songs| - 2, |songs|);
    }
  }

  /** With distinct ids, previous undoes next. */
  lemma PrevUndoesNext(songs: seq<Song>, currentId: string)
    requires DistinctIds(songs) && HasId(songs, currentId)
    ensures PrevIndex(songs, songs[NextIndex(songs, currentId)].id) == FindIndex(songs, currentId)
  {
    var i: nat := FindIndex(songs, currentId);
    StepsFromPresent(songs, currentId, i);
    var j := NextIndex(songs, currentId);
    FindIndexOfDistinct(songs, j);
    StepsFromPresent(songs, songs[j].id, j);
  }

  class Player {
    var currentSong: Option<Song>
    var isPlaying: bool
    var volume: real
    var currentTime: real
    var duration: real
    var showLyrics: bool

    constructor ()
      ensures currentSong == None && !isPlaying && volume == 0.8
      ensures currentTime == 0.0 && duration == 0.0 && !showLyrics
    {
      currentSong := None;
      isPlaying := false;
      volume := 0.8;
      currentTime := 0.0;
      duration := 0.0;
      showLyrics := false;
    }

    /** handleSongSelect: the song becomes current and plays. */
    method SongSelect(song: Song)
      modifies this
      ensures currentSong == Some(song) && isPlaying
      ensures volume == old(volume) && currentTime == old(currentTime)
      ensures duration == old(duration) && showLyrics == old(showLyrics)
    {
      currentSong := Some(song);
      isPlaying := true;
    }

    /** updateCurrentSong: only a current song with the same id is replaced. */
    method UpdateCurrentSong(updated: Song)
      modifies this
      ensures old(currentSong).Some? && old(currentSong).value.id == updated.id ==> currentSong == Some(updated)
      ensures !(old(currentSong).Some? && old(currentSong).value.id == updated.id) ==> currentSong == old(currentSong)
      ensures isPlaying == old(isPlaying) && volume == old(volume) && currentTime == old(currentTime)
      ensures duration == old(duration) && showLyrics == old(showLyrics)
    {
      if currentSong.Some? && currentSong.value.id == updated.id {
        currentSong := Some(updated);
      }
    }

    /**
     * handleSongOrAlbumDelete: deleting the current song, by a non-empty id
     * or a non-empty album name, clears it and stops playback.
     */
    method SongOrAlbumDelete(songId: Option<string>, albumName: Option<string>)
      modifies this
      ensures var hit := old(currentSong).Some? &&
                ((TruthyString(songId) && old(currentSong).value.id == songId.value) ||
                 (TruthyString(albumName) && old(currentSong).value.album == albumName.value));
              if hit then currentSong == None && !isPlaying
              else currentSong == old(currentSong) && isPlaying == old(isPlaying)
      ensures volume == old(volume) && currentTime == old(currentTime)
      ensures duration == old(duration) && showLyrics == old(showLyrics)
    {
      if currentSong.None? {
        return;
      }
      var song := currentSong.value;
      if TruthyString(songId) && song.id == songId.value {
        currentSong := None;
        isPlaying := false;
      }
      if TruthyString(albumName) && song.album == albumName.value {
        currentSong := None;
        isPlaying := false;
      }
    }

    /** togglePlayPause. */
    method TogglePlayPause()
      modifies this
      ensures isPlaying == !old(isPlaying)
      ensures currentSong == old(currentSong) && volume == old(volume) && currentTime == old(currentTime)
      ensures duration == old(duration) && showLyrics == old(showLyrics)
    {
      isPlaying := !isPlaying;
    }

    /** setIsPlaying, also driven by the UI agent's `player:isPlaying` state. */
    method SetIsPlaying(value: bool)
      modifies this
      ensures isPlaying == value
      ensures currentSong == old(currentSong) && volume == old(volume) && currentTime == old(currentTime)
      ensures duration == old(duration) && showLyrics == old(showLyrics)
    {
      isPlaying := value;
    }

    /** handleVolumeChange, also driven by the UI agent's `player:volume` state. */
    method VolumeChange(newVolume: real)
      modifies this
      ensures volume == newVolume
      ensures currentSong == old(currentSong) && isPlaying == old(isPlaying) && currentTime == old(currentTime)
      ensures duration == old(duration) && showLyrics == old(showLyrics)
    {
      volume := newVolume;
    }

    /** handleTimeUpdate. */
    method TimeUpdate(time: real)
      modifies this
      ensures currentTime == time
      ensures currentSong == old(currentSong) && isPlaying == old(isPlaying) && volume == old(volume)
      ensures duration == old(duration) && showLyrics == old(showLyrics)
    {
      currentTime := time;
    }

    /** handleDurationChange. */
    method DurationChange(newDuration: real)
      modifies this
      ensures duration == newDuration
      ensures currentSong == old(currentSong) && isPlaying == old(isPlaying) && volume == old(volume)
      ensures currentTime == old(currentTime) && showLyrics == old(showLyrics)
    {
      duration := newDuration;
    }

    /** handleSeek: moves the current time and returns it. */
    method Seek(time: real) returns (r: real)
      modifies this
      ensures r == time && currentTime == time
      ensures currentSong == old(currentSong) && isPlaying == old(isPlaying) && volume == old(volume)
      ensures duration == old(duration) && showLyrics == old(showLyrics)
    {
      currentTime := time;
      r := time;
    }

    /**
     * playNextSong: with a current song and a non-empty list, the song after
     * it (or the first, if it is not in the list) is selected and plays.
     */
    method PlayNextSong(songs: seq<Song>)
      modifies this
      ensures old(currentSong).Some? && |songs| > 0 ==>
                currentSong == Some(songs[NextIndex(songs, old(currentSong).value.id)]) && isPlaying
      ensures !(old(currentSong).Some? && |songs| > 0) ==> currentSong == old(currentSong) && isPlaying == old(isPlaying)
      ensures volume == old(volume) && currentTime == old(currentTime)
      ensures duration == old(duration) && showLyrics == old(showLyrics)
    {
      if currentSong.None? || |songs| == 0 {
        return;
      }
      var currentIndex := FindIndex(songs, currentSong.value.id);
      var nextIndex := JsRemainder(currentIndex + 1, |songs|);
      SongSelect(songs[nextIndex]);
    }

    /** playPreviousSong: as playNextSong, stepping back. */
    method PlayPreviousSong(songs: seq<Song>)
      modifies this
      ensures old(currentSong).Some? && |songs| > 0 ==>
                currentSong == Some(songs[PrevIndex(songs, old(currentSong).value.id)]) && isPlaying
      ensures !(old(currentSong).Some? && |songs| > 0) ==> currentSong == old(currentSong) && isPlaying == old(isPlaying)
      ensures volume == old(volume) && currentTime == old(currentTime)
      ensures duration == old(duration) && showLyrics == old(showLyrics)
    {
      if currentSong.None? || |songs| == 0 {
        return;
      }
      var currentIndex := FindIndex(songs, currentSong.value.id);
      var previousIndex := JsRemainder(currentIndex - 1 + |songs|, |songs|);
      SongSelect(songs[previousIndex]);
    }

    /** toggleLyrics. */
    method ToggleLyrics()
      modifies this
      ensures showLyrics == !old(showLyrics)
      ensures currentSong == old(currentSong) && isPlaying == old(isPlaying) && volume == old(volume)
      ensures currentTime == old(currentTime) && duration == old(duration)
    {
      showLyrics := !showLyrics;
    }

    /** setShowLyrics, driven by the UI agent's `player:showLyrics` state. */
    method SetShowLyrics(value: bool)
      modifies this
      ensures showLyrics == value
      ensures currentSong == old(currentSong) && isPlaying == old(isPlaying) && volume == old(volume)
      ensures currentTime == old(currentTime) && duration == old(duration)
    {
      showLyrics := value;
    }

    /**
     * loadLyrics: the lyrics agent's answer for the current song, or
     * nothing before initialisation or without a current song. `getLyrics`
     * stands for the agent call, None also for a call that threw.
     */
    method LoadLyrics<L>(isInitialized: bool, getLyrics: string -> Option<L>) returns (r: Option<L>)
      ensures isInitialized && currentSong.Some? ==> r == getLyrics(currentSong.value.id)
      ensures !(isInitialized && currentSong.Some?) ==> r == None
    {
      if !isInitialized || currentSong.None? {
        return None;
      }
      r := getLyrics(currentSong.value.id);
    }
  }
}
