// The song-list updaters src/hooks/useAgentSongManagement.ts and
// src/hooks/useSongManagement.ts both apply to their `songs` state: replacing
// the song with a matching id, and dropping a song or an album.

module SongListUpdates {
  import opened Songs
  import opened Lists

  /** prev.map(song => song.id === updated.id ? updated : song). */
  function Replaced(songs: seq<Song>, updated: Song): (r: seq<Song>)
    ensures |r| == |songs|
    ensures forall i :: 0 <= i < |r| && songs[i].id == updated.id ==> r[i] == updated
    ensures forall i :: 0 <= i < |r| && songs[i].id != updated.id ==> r[i] == songs[i]
  {
    seq(|songs|, i requires 0 <= i < |songs| => if songs[i].id == updated.id then updated else songs[i])
  }

  /** Replacing keeps the list of ids. */
  lemma ReplacedKeepsIds(songs: seq<Song>, updated: Song)
    ensures Ids(Replaced(songs, updated)) == Ids(songs)
  {
  }

  /** Replacing with the same song twice is replacing it once. */
  lemma ReplacedIdempotent(songs: seq<Song>, updated: Song)
    ensures Replaced(Replaced(songs, updated), updated) == Replaced(songs, updated)
  {
  }

  function IdIsNot(songId: string): Song -> bool
  {
    (s: Song) => s.id != songId
  }

  function AlbumIs(albumName: string): Song -> bool
  {
    (s: Song) => s.album == albumName
  }

  function AlbumIsNot(albumName: string): Song -> bool
  {
    (s: Song) => s.album != albumName
  }

  /** prev.filter(song => song.id !== songId). */
  function WithoutId(songs: seq<Song>, songId: string): (r: seq<Song>)
    ensures forall s :: s in r <==> s in songs && s.id != songId
    ensures !HasId(r, songId)
  {
    Filter(songs, IdIsNot(songId))
  }

  /** prev.filter(song => song.album !== albumName). */
  function WithoutAlbum(songs: seq<Song>, albumName: string): (r: seq<Song>)
    ensures forall s :: s in r <==> s in songs && s.album != albumName
  {
    Filter(songs, AlbumIsNot(albumName))
  }

  /** Removing an id absent from the list leaves the list as it was. */
  lemma WithoutAbsentId(songs: seq<Song>, songId: string)
    requires !HasId(songs, songId)
    ensures WithoutId(songs, songId) == songs
  {
    FilterAll(songs, IdIsNot(songId));
  }

  /** Deleting an album removes as many songs as the album had. */
  lemma {:induction false} WithoutAlbumCount(songs: seq<Song>, albumName: string)
    ensures |WithoutAlbum(songs, albumName)| + Count(songs, AlbumIs(albumName)) == |songs|
  {
    if |songs| > 0 {
      WithoutAlbumCount(songs[..|songs| - 1], albumName);
    }
  }
}
