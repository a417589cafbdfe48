// The Song record of src/pages/Index.tsx that the hooks, agents and
// components pass around, with JavaScript truthiness for its optional
// fields.

module Songs {
  import opened Wrappers

  /**
   * A song. Optional fields are Option values; the upload date is kept as
   * a timestamp in milliseconds.
   */
  datatype Song = Song(
    id: string,
    title: string,
    artist: string,
    album: string,
    duration: string,
    albumArt: string,
    audioFile: string,
    uploadDate: int,
    key: Option<string>,
    tempo: Option<real>,
    lyricsText: Option<string>,
    lyricsFileUrl: Option<string>,
    hasLyrics: Option<bool>)

  /** The artist every upload is credited to. */
  const Artist := "TheBandJuicy"

  /** The picture a song without album art gets. */
  const DefaultArt := "https://images.unsplash.com/photo-1618160702438-9b02ab6515c9?w=300&h=300&fit=crop"

  /** A number field is truthy when present and not 0 (NaN is not modelled). */
  predicate TruthyNumber(x: Option<real>) { x.Some? && x.value != 0.0 }

  /** A string field is truthy when present and not empty. */
  predicate TruthyString(x: Option<string>) { x.Some? && |x.value| > 0 }

  /** The ids of a list of songs, in order. */
  function Ids(songs: seq<Song>): (r: seq<string>)
    ensures |r| == |songs| && forall i :: 0 <= i < |songs| ==> r[i] == songs[i].id
  {
    seq(|songs|, i requires 0 <= i < |songs| => songs[i].id)
  }

  /** Whether some song of the list has the id. */
  predicate HasId(songs: seq<Song>, id: string)
  {
    exists i :: 0 <= i < |songs| && songs[i].id == id
  }

  /** No two songs of the list share an id. */
  predicate DistinctIds(songs: seq<Song>)
  {
    forall i, j :: 0 <= i < j < |songs| ==> songs[i].id != songs[j].id
  }
}
