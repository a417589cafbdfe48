// The local state of src/hooks/useAgentSongManagement.ts: the song list,
// the set of songs being analysed, the batch progress and the processing
// flag. Database calls and the analysis are inputs: `failed` stands for a
// call that threw, and an analysis outcome is the key and tempo it found or
// None when it threw. The one-second pauses between batch steps are not
// modelled; the steps run in order.

module AgentSongManagement {
  import opened Wrappers
  import opened Numeric
  import opened Strings
  import opened Songs
  import opened SongListUpdates
  import opened AnalysisUtils

  /** The key and tempo an analysis stores, or None when it threw. */
  datatype Outcome = Outcome(key: Option<string>, tempo: Option<real>)

  /** The songs after an analysis of one song: its key and tempo replaced. */
  function WithAnalysis(songs: seq<Song>, songId: string, outcome: Option<Outcome>): (r: seq<Song>)
    ensures |r| == |songs|
    ensures forall i :: 0 <= i < |r| ==>
              if songs[i].id == songId && outcome.Some?
              then r[i] == songs[i].(key := outcome.value.key, tempo := outcome.value.tempo)
              else r[i] == songs[i]
  {
    if outcome.None? then songs
    else seq(|songs|, i requires 0 <= i < |songs| =>
           if songs[i].id == songId then songs[i].(key := outcome.value.key, tempo := outcome.value.tempo) else songs[i])
  }

  /** The songs after the analyses of a batch, in order. */
  function AfterAnalyses(songs: seq<Song>, todo: seq<Song>, analyze: string -> Option<Outcome>): seq<Song>
    decreases |todo|
  {
    if |todo| == 0 then songs
    else AfterAnalyses(WithAnalysis(songs, todo[0].id, analyze(todo[0].id)), todo[1..], analyze)
  }

  /** Analysing the next song of the batch moves it from the rest to the list. */
  lemma AfterAnalysesStep(songs: seq<Song>, todo: seq<Song>, p: nat, analyze: string -> Option<Outcome>)
    requires p < |todo|
    ensures AfterAnalyses(songs, todo[p..], analyze) ==
            AfterAnalyses(WithAnalysis(songs, todo[p].id, analyze(todo[p].id)), todo[p + 1..], analyze)
  {
    assert todo[p..][1..] == todo[p + 1..];
  }

  /**
   * The batch loop after `processed` songs: one progress report per song
   * analysed, and the analyses still to come lead to the batch's result.
   */
  ghost predicate BatchState(start: seq<Song>, todo: seq<Song>, analyze: string -> Option<Outcome>, songs: seq<Song>,
                             reported: seq<int>, processed: nat)
  {
    0 < |todo| && processed <= |todo| && |reported| == processed &&
    (forall k :: 0 <= k < processed ==> reported[k] == BatchProgress(k + 1, |todo|)) &&
    AfterAnalyses(songs, todo[processed..], analyze) == AfterAnalyses(start, todo, analyze)
  }

  lemma BatchStateStep(start: seq<Song>, todo: seq<Song>, analyze: string -> Option<Outcome>, songs: seq<Song>,
                       reported: seq<int>, processed: nat)
    requires BatchState(start, todo, analyze, songs, reported, processed) && processed < |todo|
    ensures BatchState(start, todo, analyze, WithAnalysis(songs, todo[processed].id, analyze(todo[processed].id)),
                       reported + [BatchProgress(processed + 1, |todo|)], processed + 1)
  {
    AfterAnalysesStep(songs, todo, processed, analyze);
  }

  /** Two songs equal apart from their key and tempo. */
  predicate SameButAnalysis(a: Song, b: Song)
  {
    a.(key := b.key, tempo := b.tempo) == b
  }

  /** A batch of analyses keeps every song in its place and changes only keys and tempos. */
  lemma {:induction false} AfterAnalysesChangesOnlyAnalysis(songs: seq<Song>, todo: seq<Song>, analyze: string -> Option<Outcome>)
    ensures |AfterAnalyses(songs, todo, analyze)| == |songs|
    ensures forall i :: 0 <= i < |songs| ==> SameButAnalysis(songs[i], AfterAnalyses(songs, todo, analyze)[i])
    decreases |todo|
  {
    if |todo| > 0 {
      var next := WithAnalysis(songs, todo[0].id, analyze(todo[0].id));
      AfterAnalysesChangesOnlyAnalysis(next, todo[1..], analyze);
    }
  }

  /** Math.round((processed / total) * 100). */
  function BatchProgress(processed: nat, total: nat): int
    requires total > 0
  {
    Round(processed as real / total as real * 100.0)
  }

  /** The batch progress stays within 0 and 100, only grows, and is 100 after the last song. */
  lemma BatchProgressBounds(k: nat, j: nat, total: nat)
    requires 0 < total && k <= j <= total
    ensures 0 <= BatchProgress(k, total) <= BatchProgress(j, total) <= 100
    ensures BatchProgress(total, total) == 100
  {
    var t := total as real;
    QuotientNonNeg(k as real, t);
    QuotientAtMost(k as real, t, j as real / t);
    QuotientAtMost(j as real, t, 1.0);
    SelfQuotient(t);
  }

  /** The realtime record of a changed song, in the database's column names. */
  datatype SongRecord = SongRecord(
    title: string,
    artist: string,
    album: string,
    duration: string,
    albumArtUrl: string,
    audioFileUrl: string,
    songKey: Option<string>,
    tempo: Option<real>,
    lyricsText: Option<string>,
    lyricsFileUrl: Option<string>,
    hasLyrics: Option<bool>)

  /** The realtime merge: each field from the record when it is truthy, else the song's own. */
  function Merged(s: Song, record: SongRecord): (r: Song)
    ensures r.id == s.id && r.uploadDate == s.uploadDate
    ensures r.title == (if |record.title| > 0 then record.title else s.title)
    ensures r.audioFile == (if |record.audioFileUrl| > 0 then record.audioFileUrl else s.audioFile)
    ensures r.key == (if TruthyString(record.songKey) then record.songKey else s.key)
    ensures r.tempo == (if TruthyNumber(record.tempo) then record.tempo else s.tempo)
    ensures r.hasLyrics == (if record.hasLyrics == Some(true) then Some(true) else s.hasLyrics)
  {
    s.(title := Or(record.title, s.title),
       artist := Or(record.artist, s.artist),
       album := Or(record.album, s.album),
       duration := Or(record.duration, s.duration),
       albumArt := Or(record.albumArtUrl, s.albumArt),
       audioFile := Or(record.audioFileUrl, s.audioFile),
       key := if TruthyString(record.songKey) then record.songKey else s.key,
       tempo := if TruthyNumber(record.tempo) then record.tempo else s.tempo,
       lyricsText := if TruthyString(record.lyricsText) then record.lyricsText else s.lyricsText,
       lyricsFileUrl := if TruthyString(record.lyricsFileUrl) then record.lyricsFileUrl else s.lyricsFileUrl,
       hasLyrics := if record.hasLyrics == Some(true) then Some(true) else s.hasLyrics)
  }

  /** Merging the same record twice is merging it once. */
  lemma MergedIdempotent(s: Song, record: SongRecord)
    ensures Merged(Merged(s, record), record) == Merged(s, record)
  {
  }

  /** A record with no truthy field leaves the song as it was. */
  lemma MergedEmptyRecord(s: Song)
    ensures Merged(s, SongRecord("", "", "", "", "", "", None, None, None, None, None)) == s
  {
  }

  /** The list after a realtime update of one song. */
  function MergedInto(songs: seq<Song>, songId: string, record: SongRecord): (r: seq<Song>)
    ensures |r| == |songs|
    ensures forall i :: 0 <= i < |r| ==> r[i] == if songs[i].id == songId then Merged(songs[i], record) else songs[i]
  {
    seq(|songs|, i requires 0 <= i < |songs| => if songs[i].id == songId then Merged(songs[i], record) else songs[i])
  }

  class AgentSongManagement {
    var songs: seq<Song>
    var analyzingSongs: set<string>
    var analysisProgress: int
    var isProcessingQueue: bool

    constructor ()
      ensures songs == [] && analyzingSongs == {} && analysisProgress == 0 && !isProcessingQueue
    {
      songs := [];
      analyzingSongs := {};
      analysisProgress := 0;
      isProcessingQueue := false;
    }

    /**
     * handleUploadSong: the created song (the row the database returned)
     * goes to the front of the list, and a song with an audio file is then
     * analysed as startAnalysis does.
     */
    method UploadSong(isInitialized: bool, created: Option<Song>, outcome: Option<Outcome>) returns (song: Option<Song>)
      modifies this
      ensures song == (if isInitialized then created else None)
      ensures song.Some? && song.value.audioFile != "" ==>
                songs == WithAnalysis([song.value] + old(songs), song.value.id, outcome) &&
                analyzingSongs == old(analyzingSongs) - {song.value.id}
      ensures song.Some? && song.value.audioFile == "" ==> songs == [song.value] + old(songs) && analyzingSongs == old(analyzingSongs)
      ensures song.None? ==> songs == old(songs) && analyzingSongs == old(analyzingSongs)
      ensures analysisProgress == old(analysisProgress) && isProcessingQueue == old(isProcessingQueue)
    {
      if !isInitialized || created.None? {
        return None;
      }
      song := created;
      songs := [song.value] + songs;
      if song.value.audioFile != "" {
        var during := StartAnalysis(isInitialized, song.value, outcome);
      }
    }

    /** handleSongUpdate: the song with the matching id is replaced. */
    method SongUpdate(isInitialized: bool, failed: bool, updated: Song) returns (ok: bool)
      modifies this
      ensures ok <==> isInitialized && !failed
      ensures songs == if ok then Replaced(old(songs), updated) else old(songs)
      ensures analyzingSongs == old(analyzingSongs) && analysisProgress == old(analysisProgress)
    {
      if !isInitialized || failed {
        return false;
      }
      songs := Replaced(songs, updated);
      ok := true;
    }

    /** handleSongDelete: exactly the songs with that id are dropped. */
    method SongDelete(isInitialized: bool, failed: bool, songId: string) returns (ok: bool)
      modifies this
      ensures ok <==> isInitialized && !failed
      ensures songs == if ok then WithoutId(old(songs), songId) else old(songs)
      ensures analyzingSongs == old(analyzingSongs) && analysisProgress == old(analysisProgress)
    {
      if !isInitialized || failed {
        return false;
      }
      songs := WithoutId(songs, songId);
      ok := true;
    }

    /** handleAlbumDelete: exactly the songs of that album are dropped. */
    method AlbumDelete(isInitialized: bool, failed: bool, albumName: string) returns (ok: bool)
      modifies this
      ensures ok <==> isInitialized && !failed
      ensures songs == if ok then WithoutAlbum(old(songs), albumName) else old(songs)
      ensures analyzingSongs == old(analyzingSongs) && analysisProgress == old(analysisProgress)
    {
      if !isInitialized || failed {
        return false;
      }
      songs := WithoutAlbum(songs, albumName);
      ok := true;
    }

    /**
     * startAnalysis: without an audio file nothing happens; otherwise the
     * song is marked as analysing while the analysis runs (`during`), its
     * outcome is stored, and the mark is removed whatever the outcome.
     */
    method StartAnalysis(isInitialized: bool, song: Song, outcome: Option<Outcome>) returns (during: set<string>)
      modifies this
      ensures !isInitialized || song.audioFile == "" ==>
                songs == old(songs) && analyzingSongs == old(analyzingSongs) && during == old(analyzingSongs)
      ensures isInitialized && song.audioFile != "" ==>
                during == old(analyzingSongs) + {song.id} &&
                analyzingSongs == old(analyzingSongs) - {song.id} &&
                songs == WithAnalysis(old(songs), song.id, outcome)
      ensures analysisProgress == old(analysisProgress) && isProcessingQueue == old(isProcessingQueue)
    {
      during := analyzingSongs;
      if !isInitialized || song.audioFile == "" {
        return;
      }
      analyzingSongs := analyzingSongs + {song.id};
      during := analyzingSongs;
      songs := WithAnalysis(songs, song.id, outcome);
      analyzingSongs := analyzingSongs - {song.id};
    }

    /** handleReanalyzeSong: whether an analysis starts. */
    predicate ReanalyzeStarts(isInitialized: bool, song: Song)
      reads this
    {
      isInitialized && song.audioFile != "" && song.id !in analyzingSongs
    }

    /**
     * analyzeExistingSongs: the unanalysed songs of the list are analysed
     * one after another; after k of n the progress is round(100 k / n),
     * and at the end the flag is cleared and the progress is 100.
     * `reported` is the progress after each song.
     */
    method AnalyzeExistingSongs(isInitialized: bool, list: seq<Song>, analyze: string -> Option<Outcome>)
      returns (reported: seq<int>)
      modifies this
      ensures var todo := FilterUnanalyzedSongs(list, old(analyzingSongs));
              if !isInitialized || |todo| == 0 then
                reported == [] && songs == old(songs) && analysisProgress == old(analysisProgress) &&
                isProcessingQueue == old(isProcessingQueue)
              else
                |reported| == |todo| &&
                (forall k :: 0 <= k < |todo| ==> reported[k] == BatchProgress(k + 1, |todo|)) &&
                songs == AfterAnalyses(old(songs), todo, analyze) &&
                analysisProgress == 100 && !isProcessingQueue
      ensures analyzingSongs == old(analyzingSongs)
    {
      reported := [];
      if !isInitialized {
        return;
      }
      var todo := FilterUnanalyzedSongs(list, analyzingSongs);
      if |todo| == 0 {
        return;
      }
      isProcessingQueue := true;
      analysisProgress := 0;
      reported := ProcessBatch(todo, analyze);
      isProcessingQueue := false;
      analysisProgress := 100;
    }

    /** processNext, run to the end: each song marked, analysed, unmarked, and the progress reported. */
    method ProcessBatch(todo: seq<Song>, analyze: string -> Option<Outcome>) returns (reported: seq<int>)
      requires |todo| > 0
      requires forall k :: 0 <= k < |todo| ==> todo[k].id !in analyzingSongs
      modifies this
      ensures |reported| == |todo|
      ensures forall k :: 0 <= k < |todo| ==> reported[k] == BatchProgress(k + 1, |todo|)
      ensures songs == AfterAnalyses(old(songs), todo, analyze)
      ensures analyzingSongs == old(analyzingSongs)
      ensures analysisProgress == 100 && isProcessingQueue == old(isProcessingQueue)
    {
      reported := [];
      var processed := 0;
      while processed < |todo|
        invariant analyzingSongs == old(analyzingSongs) && isProcessingQueue == old(isProcessingQueue)
        invariant BatchState(old(songs), todo, analyze, songs, reported, processed)
        invariant processed > 0 ==> analysisProgress == BatchProgress(processed, |todo|)
      {
        var song := todo[processed];
        BatchStateStep(old(songs), todo, analyze, songs, reported, processed);
        assert (analyzingSongs + {song.id}) - {song.id} == analyzingSongs;
        analyzingSongs := analyzingSongs + {song.id};
        songs := WithAnalysis(songs, song.id, analyze(song.id));
        analyzingSongs := analyzingSongs - {song.id};
        processed := processed + 1;
        analysisProgress := BatchProgress(processed, |todo|);
        reported := reported + [analysisProgress];
      }
      assert todo[|todo|..] == [];
      BatchProgressBounds(|todo|, |todo|, |todo|);
    }

    /** The realtime subscription's update of the list. */
    method RealtimeUpdate(songId: string, record: SongRecord)
      modifies this
      ensures songs == MergedInto(old(songs), songId, record)
      ensures analyzingSongs == old(analyzingSongs) && analysisProgress == old(analysisProgress)
    {
      songs := MergedInto(songs, songId, record);
    }
  }
}
