// The metadata rules of src/agents/MetadataAgent.ts: formatting the tags
// music-metadata reads from a file into title, artist, album, "m:ss"
// duration, year, genre and picture with their defaults, the default
// metadata when reading fails, and the field fallback of the batch
// extraction that rewrites each song with an audio file. Tag reading,
// fetching and the database update are inputs.

module MetadataAgent {
  import opened Wrappers
  import opened Clock
  import opened Strings

  /**
   * The tags music-metadata reports; an empty string is a missing tag
   * (both are falsy), `duration` is None when missing or not a number.
   */
  datatype Tags = Tags(
    title: string,
    artist: string,
    album: string,
    year: Option<int>,
    genre: Option<seq<string>>,
    picture: Option<seq<string>>,
    duration: Option<real>)

  const NoTags: Tags := Tags("", "", "", None, None, None, None)

  datatype Metadata = Metadata(
    title: string,
    artist: string,
    album: string,
    duration: string,
    year: Option<int>,
    genre: Option<string>,
    picture: Option<string>)

  /** The first element of a list, when there is one. */
  function First(list: Option<seq<string>>): (r: Option<string>)
    ensures r.Some? <==> list.Some? && |list.value| > 0
    ensures r.Some? ==> r.value == list.value[0]
  {
    if list.Some? && |list.value| > 0 then Some(list.value[0]) else None
  }

  /** The duration string: "m:ss" for a truthy duration, else "0:00". */
  function DurationString(duration: Option<real>): (r: string)
    ensures duration.None? || duration.value == 0.0 ==> r == "0:00"
    ensures duration.Some? && duration.value != 0.0 ==> r == FormatClock(duration.value)
  {
    if duration.Some? && duration.value != 0.0 then FormatClock(duration.value) else "0:00"
  }

  /**
   * formatMetadata: each missing text tag becomes its "Unknown ..."
   * default, the duration is rendered, and genre and picture are the
   * first elements of their lists.
   */
  function FormatMetadata(tags: Tags): (m: Metadata)
    ensures m.title == Or(tags.title, "Unknown Title")
    ensures m.artist == Or(tags.artist, "Unknown Artist")
    ensures m.album == Or(tags.album, "Unknown Album")
    ensures m.duration == DurationString(tags.duration)
    ensures m.year == tags.year && m.genre == First(tags.genre) && m.picture == First(tags.picture)
  {
    Metadata(Or(tags.title, "Unknown Title"), Or(tags.artist, "Unknown Artist"), Or(tags.album, "Unknown Album"),
             DurationString(tags.duration), tags.year, First(tags.genre), First(tags.picture))
  }

  /** getDefaultMetadata: the three defaults and "0:00", nothing else. */
  function DefaultMetadata(): (m: Metadata)
    ensures m == Metadata("Unknown Title", "Unknown Artist", "Unknown Album", "0:00", None, None, None)
  {
    Metadata("Unknown Title", "Unknown Artist", "Unknown Album", "0:00", None, None, None)
  }

  /** A file without tags formats exactly as the default metadata. */
  lemma NoTagsGiveDefault()
    ensures FormatMetadata(NoTags) == DefaultMetadata()
  {
  }

  /** Formatted text fields are never empty. */
  lemma FormattedFieldsNonEmpty(tags: Tags)
    ensures |FormatMetadata(tags).title| > 0 && |FormatMetadata(tags).artist| > 0 && |FormatMetadata(tags).album| > 0
    ensures |FormatMetadata(tags).duration| > 0
  {
    if tags.duration.Some? && tags.duration.value != 0.0 {
      assert |FormatClock(tags.duration.value)| > 0;
    }
  }

  /**
   * extractMetadataFromUrl: the formatted tags, or the default metadata
   * when fetching or parsing fails (`read` is None).
   */
  function ExtractedMetadata(read: Option<Tags>): (m: Metadata)
    ensures read.None? ==> m == DefaultMetadata()
    ensures read.Some? ==> m == FormatMetadata(read.value)
  {
    if read.Some? then FormatMetadata(read.value) else DefaultMetadata()
  }

  /** The song fields batch extraction reads. */
  datatype SongFields = SongFields(id: string, title: string, artist: string, album: string, duration: string,
                                   audioFile: string, audio_file: string)

  /** The row batch extraction writes for one song. */
  datatype SongUpdate = SongUpdate(id: string, title: string, artist: string, album: string, duration: string, year: Option<int>)

  /**
   * The update as written: `metadata.title || song.title || 'Unknown Title'`
   * and so on, over metadata that was already defaulted.
   */
  function BatchUpdateAsWritten(song: SongFields, read: Option<Tags>): (u: SongUpdate)
    ensures var m := ExtractedMetadata(read);
            u.id == song.id && u.title == m.title && u.artist == m.artist && u.album == m.album && u.year == m.year
  {
    var m := ExtractedMetadata(read);
    SongUpdate(song.id, Or(m.title, Or(song.title, "Unknown Title")), Or(m.artist, Or(song.artist, "Unknown Artist")),
               Or(m.album, Or(song.album, "Unknown Album")), Or(m.duration, Or(song.duration, "0:00")), m.year)
  }

  /**
   * As written, the stored title never survives: the extracted title is
   * already non-empty, so a song whose file has no title tag is renamed
   * "Unknown Title".
   */
  lemma BatchAsWrittenDropsExistingTitle()
    ensures var song := SongFields("s1", "Encore", "The Band", "Live", "3:00", "https://a/s1.mp3", "");
            BatchUpdateAsWritten(song, Some(NoTags)).title == "Unknown Title" &&
            BatchUpdateAsWritten(song, None).title == "Unknown Title"
  {
  }

  /**
   * The fallback the chain evidently intends: the tag value, then the
   * stored value, then the default, per field.
   */
  function BatchUpdate(song: SongFields, read: Option<Tags>): (u: SongUpdate)
    ensures var tags := if read.Some? then read.value else NoTags;
            u.id == song.id &&
            u.title == Or(tags.title, Or(song.title, "Unknown Title")) &&
            u.artist == Or(tags.artist, Or(song.artist, "Unknown Artist")) &&
            u.album == Or(tags.album, Or(song.album, "Unknown Album")) &&
            u.year == tags.year
  {
    var tags := if read.Some? then read.value else NoTags;
    var duration := if tags.duration.Some? && tags.duration.value != 0.0 then FormatClock(tags.duration.value) else "";
    SongUpdate(song.id, Or(tags.title, Or(song.title, "Unknown Title")), Or(tags.artist, Or(song.artist, "Unknown Artist")),
               Or(tags.album, Or(song.album, "Unknown Album")), Or(duration, Or(song.duration, "0:00")), tags.year)
  }

  /**
   * The corrected fallback keeps a stored field the tags lack, takes every
   * field the tags have exactly as the code as written does, and
   * defaults only when both are missing.
   */
  lemma BatchUpdatePrefersTagsThenStored(song: SongFields, read: Option<Tags>)
    ensures var tags := if read.Some? then read.value else NoTags;
            var u := BatchUpdate(song, read);
            var w := BatchUpdateAsWritten(song, read);
            (|tags.title| == 0 && |song.title| > 0 ==> u.title == song.title) &&
            (|tags.title| > 0 ==> u.title == w.title) &&
            (|tags.artist| > 0 ==> u.artist == w.artist) &&
            (|tags.album| > 0 ==> u.album == w.album) &&
            (tags.duration.Some? && tags.duration.value != 0.0 ==> u.duration == w.duration) &&
            (|tags.title| == 0 && |song.title| == 0 ==> u.title == "Unknown Title") &&
            u.year == w.year
  {
    var tags := if read.Some? then read.value else NoTags;
    if tags.duration.Some? && tags.duration.value != 0.0 {
      assert |FormatClock(tags.duration.value)| > 0;
    }
  }

  /** `song.audioFile || song.audio_file`: the url batch extraction reads. */
  function AudioUrl(song: SongFields): string
  {
    Or(song.audioFile, song.audio_file)
  }

  /** The row stored for a song: the update as written, or the corrected one. */
  function RowFor(song: SongFields, read: Option<Tags>, corrected: bool): (u: SongUpdate)
    ensures u == if corrected then BatchUpdate(song, read) else BatchUpdateAsWritten(song, read)
  {
    if corrected then BatchUpdate(song, read) else BatchUpdateAsWritten(song, read)
  }

  /**
   * The rows batch extraction stores, in order: songs without an audio
   * file are skipped, and so are songs whose database update fails; each
   * stored row is the update as written or, when `corrected`, the
   * corrected one.
   */
  function BatchResults(songs: seq<SongFields>, read: string -> Option<Tags>, updateFails: string -> bool,
                        corrected: bool): (r: seq<SongUpdate>)
    ensures |r| <= |songs|
  {
    if |songs| == 0 then []
    else
      var init := BatchResults(songs[..|songs| - 1], read, updateFails, corrected);
      var song := songs[|songs| - 1];
      if |AudioUrl(song)| == 0 || updateFails(song.id) then init
      else init + [RowFor(song, read(AudioUrl(song)), corrected)]
  }

  /** Every stored row belongs to a song with an audio file whose update went through. */
  lemma {:induction false} BatchResultsFromPlayableSongs(songs: seq<SongFields>, read: string -> Option<Tags>, updateFails: string -> bool,
                                                          corrected: bool)
    ensures forall u :: u in BatchResults(songs, read, updateFails, corrected) ==>
              exists s :: s in songs && s.id == u.id && |AudioUrl(s)| > 0 && !updateFails(s.id)
  {
    if |songs| > 0 {
      var init := songs[..|songs| - 1];
      BatchResultsFromPlayableSongs(init, read, updateFails, corrected);
      forall u | u in BatchResults(songs, read, updateFails, corrected)
        ensures exists s :: s in songs && s.id == u.id && |AudioUrl(s)| > 0 && !updateFails(s.id)
      {
        if u in BatchResults(init, read, updateFails, corrected) {
          var s :| s in init && s.id == u.id && |AudioUrl(s)| > 0 && !updateFails(s.id);
          assert s in songs;
        } else {
          assert songs[|songs| - 1] in songs;
        }
      }
    }
  }

  /**
   * handleBatchExtractMetadata's loop: the rows stored and the progress,
   * which grows by 100 / n for every stored row and is reported capped at
   * 99 until the task completes. Each row is the update as written.
   */
  method BatchExtract(songs: seq<SongFields>, read: string -> Option<Tags>, updateFails: string -> bool)
    returns (results: seq<SongUpdate>, progress: real)
    ensures results == BatchResults(songs, read, updateFails, false)
    ensures |songs| > 0 ==> progress == Progress(|results|, |songs|) && 0.0 <= progress <= 100.0
  {
    results, progress := [], 0.0;
    if |songs| == 0 {
      return;
    }
    var increment := 100.0 / |songs| as real;
    assert progress == Progress(0, |songs|);
    var i := 0;
    while i < |songs|
      invariant 0 <= i <= |songs|
      invariant results == BatchResults(songs[..i], read, updateFails, false)
      invariant progress == Progress(|results|, |songs|)
    {
      BatchResultsStep(songs, i, read, updateFails, false);
      var song := songs[i];
      var url := AudioUrl(song);
      if |url| > 0 && !updateFails(song.id) {
        results := results + [BatchUpdateAsWritten(song, read(url))];
        progress := progress + increment;
      }
      i := i + 1;
    }
    assert songs[..|songs|] == songs;
    ProgressAtMostHundred(|results|, |songs|);
  }

  /** One more song either stores its row or is skipped. */
  lemma BatchResultsStep(songs: seq<SongFields>, i: nat, read: string -> Option<Tags>, updateFails: string -> bool,
                         corrected: bool)
    requires i < |songs|
    ensures var song := songs[i];
            BatchResults(songs[..i + 1], read, updateFails, corrected) ==
              if |AudioUrl(song)| == 0 || updateFails(song.id) then BatchResults(songs[..i], read, updateFails, corrected)
              else BatchResults(songs[..i], read, updateFails, corrected) + [RowFor(song, read(AudioUrl(song)), corrected)]
  {
    assert songs[..i + 1][..i] == songs[..i];
  }

  /**
   * The corrected extraction stores the same songs in the same order as
   * the extraction as written, and each of its rows keeps what the row as
   * written takes from the tags.
   */
  lemma {:induction false} BatchResultsCorrectedAgree(songs: seq<SongFields>, read: string -> Option<Tags>, updateFails: string -> bool)
    ensures var u, w := BatchResults(songs, read, updateFails, true), BatchResults(songs, read, updateFails, false);
            |u| == |w| &&
            forall k :: 0 <= k < |u| ==> u[k].id == w[k].id && u[k].year == w[k].year
  {
    if |songs| > 0 {
      BatchResultsCorrectedAgree(songs[..|songs| - 1], read, updateFails);
    }
  }

  /** The progress after k stored rows out of n songs: k increments of 100 / n. */
  function Progress(k: nat, n: nat): real
    requires 0 < n
  {
    if k == 0 then 0.0 else Progress(k - 1, n) + 100.0 / n as real
  }

  /** k increments of 100 / n make up the share k / n of 100. */
  lemma {:induction false} ProgressIsShare(k: nat, n: nat)
    requires 0 < n
    ensures Progress(k, n) * n as real == 100.0 * k as real
  {
    if k > 0 {
      ProgressIsShare(k - 1, n);
      var step := 100.0 / n as real;
      assert step * n as real == 100.0;
      assert Progress(k, n) * n as real == Progress(k - 1, n) * n as real + step * n as real;
    }
  }

  /** k increments of 100 / n, for k <= n, stay within 0 and 100. */
  lemma ProgressAtMostHundred(k: nat, n: nat)
    requires 0 < n && k <= n
    ensures 0.0 <= Progress(k, n) <= 100.0
  {
    ProgressIsShare(k, n);
    var p := Progress(k, n);
    assert 100.0 * k as real <= 100.0 * n as real;
    assert (p - 100.0) * n as real <= 0.0;
  }
}
