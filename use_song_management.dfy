// The song list of src/hooks/useSongManagement.ts and how the upload, edit,
// delete and realtime handlers change it. The database operations are
// inputs: `created` is the song the insert returned (None on failure) and
// `success` what the update or delete reported.

module SongManagement {
  import opened Wrappers
  import opened Songs
  import opened Lists
  import opened SongListUpdates

  /** A field of a partial song: absent, or present with a value (for optional fields possibly undefined). */
  datatype Field<T> = Absent | Present(value: T)

  function Over<T>(f: Field<T>, old_: T): (r: T)
    ensures f.Absent? ==> r == old_
    ensures f.Present? ==> r == f.value
  {
    if f.Present? then f.value else old_
  }

  /** The Partial<Song> a realtime update carries, besides its id. */
  datatype SongPatch = SongPatch(
    id: string,
    title: Field<string>,
    artist: Field<string>,
    album: Field<string>,
    duration: Field<string>,
    albumArt: Field<string>,
    audioFile: Field<string>,
    uploadDate: Field<int>,
    key: Field<Option<string>>,
    tempo: Field<Option<real>>,
    lyricsText: Field<Option<string>>,
    lyricsFileUrl: Field<Option<string>>,
    hasLyrics: Field<Option<bool>>)

  /**
   * `{ ...song, ...updatedSong }`: every present field of the patch wins,
   * even one that is present but undefined; absent fields keep the song's.
   */
  function Overlaid(s: Song, p: SongPatch): (r: Song)
    ensures r.id == p.id
    ensures r.title == Over(p.title, s.title) && r.artist == Over(p.artist, s.artist) && r.album == Over(p.album, s.album)
    ensures r.duration == Over(p.duration, s.duration) && r.albumArt == Over(p.albumArt, s.albumArt)
    ensures r.audioFile == Over(p.audioFile, s.audioFile) && r.uploadDate == Over(p.uploadDate, s.uploadDate)
    ensures r.key == Over(p.key, s.key) && r.tempo == Over(p.tempo, s.tempo)
    ensures r.lyricsText == Over(p.lyricsText, s.lyricsText) && r.lyricsFileUrl == Over(p.lyricsFileUrl, s.lyricsFileUrl)
    ensures r.hasLyrics == Over(p.hasLyrics, s.hasLyrics)
  {
    Song(p.id, Over(p.title, s.title), Over(p.artist, s.artist), Over(p.album, s.album), Over(p.duration, s.duration),
         Over(p.albumArt, s.albumArt), Over(p.audioFile, s.audioFile), Over(p.uploadDate, s.uploadDate),
         Over(p.key, s.key), Over(p.tempo, s.tempo), Over(p.lyricsText, s.lyricsText),
         Over(p.lyricsFileUrl, s.lyricsFileUrl), Over(p.hasLyrics, s.hasLyrics))
  }

  /** A patch naming a key that is present but undefined erases the song's key. */
  lemma UndefinedFieldOverwrites(s: Song, p: SongPatch)
    requires p.key == Present(None) && s.key.Some?
    ensures Overlaid(s, p).key.None? && Overlaid(s, p).key != s.key
  {
  }

  /** A patch with only the song's id gives back the song. */
  lemma EmptyPatchKeepsSong(s: Song)
    ensures Overlaid(s, SongPatch(s.id, Absent, Absent, Absent, Absent, Absent, Absent, Absent, Absent, Absent, Absent, Absent, Absent)) == s
  {
  }

  /** Overlaying twice with the same patch is overlaying once. */
  lemma OverlaidIdempotent(s: Song, p: SongPatch)
    ensures Overlaid(Overlaid(s, p), p) == Overlaid(s, p)
  {
  }

  /** handleReanalyzeSong: a re-analysis starts only for a song with an audio file that is not being analysed. */
  predicate ReanalyzeStarts(song: Song, analyzingSongs: set<string>)
  {
    song.audioFile != "" && song.id !in analyzingSongs
  }

  class SongManagement {
    var songs: seq<Song>

    constructor ()
      ensures songs == []
    {
      songs := [];
    }

    /** handleUploadSong: a created song goes to the front of the list. */
    method UploadSong(created: Option<Song>)
      modifies this
      ensures created.Some? ==> songs == [created.value] + old(songs)
      ensures created.None? ==> songs == old(songs)
    {
      if created.Some? {
        songs := [created.value] + songs;
      }
    }

    /** handleSongUpdate: after a successful update the song with the matching id is replaced. */
    method SongUpdate(updated: Song, success: bool)
      modifies this
      ensures songs == if success then Replaced(old(songs), updated) else old(songs)
    {
      if success {
        songs := Replaced(songs, updated);
      }
    }

    /**
     * handleSongDelete: only a song in the list is deleted (`attempted`),
     * and after a successful delete exactly that id is dropped.
     */
    method SongDelete(songId: string, success: bool) returns (attempted: bool)
      modifies this
      ensures attempted <==> HasId(old(songs), songId)
      ensures attempted && success ==> songs == WithoutId(old(songs), songId)
      ensures !(attempted && success) ==> songs == old(songs)
    {
      attempted := HasId(songs, songId);
      if attempted && success {
        songs := WithoutId(songs, songId);
      }
    }

    /**
     * handleAlbumDelete: the delete is asked for with the number of songs
     * in the album, and after it succeeds exactly those songs are dropped.
     */
    method AlbumDelete(albumName: string, success: bool) returns (songCount: nat)
      modifies this
      ensures songCount == Count(old(songs), AlbumIs(albumName))
      ensures success ==> songs == WithoutAlbum(old(songs), albumName) && |songs| + songCount == |old(songs)|
      ensures !success ==> songs == old(songs)
    {
      songCount := Count(songs, AlbumIs(albumName));
      if success {
        WithoutAlbumCount(songs, albumName);
        songs := WithoutAlbum(songs, albumName);
      }
    }

    /** handleRealtimeSongUpdate: the song with the patch's id is overlaid, the others are kept. */
    method RealtimeSongUpdate(p: SongPatch)
      modifies this
      ensures |songs| == |old(songs)|
      ensures forall i :: 0 <= i < |songs| ==>
                songs[i] == if old(songs)[i].id == p.id then Overlaid(old(songs)[i], p) else old(songs)[i]
    {
      var prev := songs;
      songs := seq(|prev|, i requires 0 <= i < |prev| => if prev[i].id == p.id then Overlaid(prev[i], p) else prev[i]);
    }
  }
}
