// The simpler player state of src/hooks/usePlayerState.ts: the current song
// and whether it plays, with the first song chosen automatically and a
// replacement chosen when the current song is deleted.

module PlayerState {
  import opened Wrappers
  import opened Songs
  import opened Lists

  /**
   * The filter of handleSongOrAlbumDelete: a song survives unless it has the
   * deleted id or the deleted album (an undefined argument deletes nothing).
   */
  function Survives(songId: Option<string>, albumName: Option<string>): Song -> bool
  {
    (s: Song) => (songId.None? || s.id != songId.value) && (albumName.None? || s.album != albumName.value)
  }

  /** The delete concerns the current song when its id or its album is the one deleted. */
  predicate Hits(current: Song, songId: Option<string>, albumName: Option<string>)
  {
    songId == Some(current.id) || albumName == Some(current.album)
  }

  /** The song that replaces a deleted current song: the first survivor, if any. */
  function Replacement(songs: seq<Song>, songId: Option<string>, albumName: Option<string>): (r: Option<Song>)
    ensures r.Some? ==> r.value in songs && Survives(songId, albumName)(r.value)
    ensures r.None? ==> forall i :: 0 <= i < |songs| ==> !Survives(songId, albumName)(songs[i])
  {
    var remaining := Filter(songs, Survives(songId, albumName));
    if |remaining| > 0 then Some(remaining[0])
    else
      assert forall i :: 0 <= i < |songs| ==> (songs[i] in songs);
      None
  }

  /** The replacement is the survivor nearest the front of the list. */
  lemma ReplacementIsFirstSurvivor(songs: seq<Song>, songId: Option<string>, albumName: Option<string>, k: nat)
    requires k < |songs| && Survives(songId, albumName)(songs[k])
    requires forall j :: 0 <= j < k ==> !Survives(songId, albumName)(songs[j])
    ensures Replacement(songs, songId, albumName) == Some(songs[k])
  {
    FilterHead(songs, Survives(songId, albumName), k);
  }

  /** The replacement is never the current song that was deleted. */
  lemma ReplacementIsNotDeleted(songs: seq<Song>, current: Song, songId: Option<string>, albumName: Option<string>)
    requires Hits(current, songId, albumName)
    ensures Replacement(songs, songId, albumName) != Some(current)
  {
  }

  class Player {
    var currentSong: Option<Song>
    var isPlaying: bool

    constructor ()
      ensures currentSong == None && !isPlaying
    {
      currentSong := None;
      isPlaying := false;
    }

    /** The effect on the song list: with no current song, the first song becomes current. */
    method AutoSelect(songs: seq<Song>)
      modifies this
      ensures |songs| > 0 && old(currentSong).None? ==> currentSong == Some(songs[0])
      ensures !(|songs| > 0 && old(currentSong).None?) ==> currentSong == old(currentSong)
      ensures isPlaying == old(isPlaying)
    {
      if |songs| > 0 && currentSong.None? {
        currentSong := Some(songs[0]);
      }
    }

    /** handleSongSelect: the song becomes current and plays. */
    method SongSelect(song: Song)
      modifies this
      ensures currentSong == Some(song) && isPlaying
    {
      currentSong := Some(song);
      isPlaying := true;
    }

    /** setIsPlaying. */
    method SetIsPlaying(value: bool)
      modifies this
      ensures isPlaying == value && currentSong == old(currentSong)
    {
      isPlaying := value;
    }

    /** updateCurrentSong: only a current song with the same id is replaced. */
    method UpdateCurrentSong(updated: Song)
      modifies this
      ensures old(currentSong).Some? && old(currentSong).value.id == updated.id ==> currentSong == Some(updated)
      ensures !(old(currentSong).Some? && old(currentSong).value.id == updated.id) ==> currentSong == old(currentSong)
      ensures isPlaying == old(isPlaying)
    {
      if currentSong.Some? && currentSong.value.id == updated.id {
        currentSong := Some(updated);
      }
    }

    /**
     * handleSongOrAlbumDelete: when the current song is deleted, the first
     * surviving song (or none) becomes current and playback stops;
     * otherwise nothing changes.
     */
    method SongOrAlbumDelete(songs: seq<Song>, songId: Option<string>, albumName: Option<string>)
      modifies this
      ensures old(currentSong).Some? && Hits(old(currentSong).value, songId, albumName) ==>
                currentSong == Replacement(songs, songId, albumName) && !isPlaying
      ensures !(old(currentSong).Some? && Hits(old(currentSong).value, songId, albumName)) ==>
                currentSong == old(currentSong) && isPlaying == old(isPlaying)
    {
      if currentSong.Some? && Hits(currentSong.value, songId, albumName) {
        var remainingSongs := Filter(songs, Survives(songId, albumName));
        currentSong := if |remainingSongs| > 0 then Some(remainingSongs[0]) else None;
        isPlaying := false;
      }
    }
  }
}
