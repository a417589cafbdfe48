// The analysis bookkeeping of src/hooks/audioAnalysis/utils.ts: which songs
// still need an analysis, and the set of song ids being analysed.

module AnalysisUtils {
  import opened Songs
  import opened Lists

  /**
   * shouldAnalyzeSong: the song has an audio file, is not being analysed,
   * and lacks a truthy tempo or a truthy key (a tempo of 0 counts as
   * missing).
   */
  predicate ShouldAnalyzeSong(song: Song, analyzingSongs: set<string>)
  {
    song.audioFile != "" && song.id !in analyzingSongs && (!TruthyNumber(song.tempo) || !TruthyString(song.key))
  }

  /** The filter's callback, `song => shouldAnalyzeSong(song, analyzingSongs)`. */
  function Unanalyzed(analyzingSongs: set<string>): Song -> bool
  {
    song => ShouldAnalyzeSong(song, analyzingSongs)
  }

  /** songs.filter(song => shouldAnalyzeSong(song, analyzingSongs)). */
  function FilterUnanalyzedSongs(songs: seq<Song>, analyzingSongs: set<string>): (r: seq<Song>)
    ensures |r| <= |songs|
    ensures forall i :: 0 <= i < |r| ==> ShouldAnalyzeSong(r[i], analyzingSongs)
    ensures forall s :: s in r <==> s in songs && ShouldAnalyzeSong(s, analyzingSongs)
  {
    Filter(songs, Unanalyzed(analyzingSongs))
  }

  /** The filter keeps the original order: filtering a concatenation concatenates the filtered parts. */
  lemma FilterConcat(a: seq<Song>, b: seq<Song>, analyzingSongs: set<string>)
    ensures FilterUnanalyzedSongs(a + b, analyzingSongs)
         == FilterUnanalyzedSongs(a, analyzingSongs) + FilterUnanalyzedSongs(b, analyzingSongs)
  {
    Lists.FilterConcat(a, b, Unanalyzed(analyzingSongs));
  }

  /** Filtering twice changes nothing. */
  lemma FilterIdempotent(songs: seq<Song>, analyzingSongs: set<string>)
    ensures FilterUnanalyzedSongs(FilterUnanalyzedSongs(songs, analyzingSongs), analyzingSongs)
         == FilterUnanalyzedSongs(songs, analyzingSongs)
  {
    FilterAll(FilterUnanalyzedSongs(songs, analyzingSongs), Unanalyzed(analyzingSongs));
  }

  /** new Set(prev).add(songId): a new set; prev itself is a value and stays as it was. */
  function AddSong(prev: set<string>, songId: string): (r: set<string>)
    ensures songId in r && prev <= r
    ensures forall x :: x in r && x != songId ==> x in prev
  {
    prev + {songId}
  }

  /** A copy of prev with songId deleted. */
  function RemoveSong(prev: set<string>, songId: string): (r: set<string>)
    ensures songId !in r && r <= prev
    ensures forall x :: x in prev && x != songId ==> x in r
  {
    prev - {songId}
  }

  /** Removing an id that is not there gives an equal set. */
  lemma RemoveAbsent(prev: set<string>, songId: string)
    requires songId !in prev
    ensures RemoveSong(prev, songId) == prev
  {
  }

  /** Adding and then removing a new id restores the set. */
  lemma RemoveAfterAdd(prev: set<string>, songId: string)
    requires songId !in prev
    ensures RemoveSong(AddSong(prev, songId), songId) == prev
  {
  }

  /** Adding an id twice is adding it once. */
  lemma AddIdempotent(prev: set<string>, songId: string)
    ensures AddSong(AddSong(prev, songId), songId) == AddSong(prev, songId)
  {
  }

  /** Once a song's id is in the analysing set it is no longer selected for analysis. */
  lemma AnalyzingSongIsSkipped(song: Song, analyzingSongs: set<string>)
    ensures !ShouldAnalyzeSong(song, AddSong(analyzingSongs, song.id))
    ensures !(song in FilterUnanalyzedSongs([song], AddSong(analyzingSongs, song.id)))
  {
  }

  /** A song whose analysis finished (removed from the set) is selected again only while it still lacks a tempo or key. */
  lemma FinishedSongNeedsMissingField(song: Song, analyzingSongs: set<string>)
    requires song.audioFile != ""
    ensures ShouldAnalyzeSong(song, RemoveSong(analyzingSongs, song.id))
        <==> !TruthyNumber(song.tempo) || !TruthyString(song.key)
  {
  }

  /** A song with a truthy tempo and key, or without an audio file, is never selected. */
  lemma AnalysedSongIsSkipped(song: Song, analyzingSongs: set<string>)
    requires song.audioFile == "" || (TruthyNumber(song.tempo) && TruthyString(song.key))
    ensures !ShouldAnalyzeSong(song, analyzingSongs)
  {
  }
}
