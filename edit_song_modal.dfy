// The song editor of src/components/EditSongModal.tsx: the form a song
// opens it with, the file handlers, and the song it saves. The lyrics upload
// and the file reader are left out as I/O: what the upload returned and the
// text the reader produced are arguments.

module EditSongModal {
  import opened Wrappers
  import opened Strings
  import opened Songs
  import opened JsText
  import Clock

  /** A chosen file: its name and MIME type. */
  datatype File = File(name: string, mimeType: string)

  /** The editor's state. */
  datatype EditState = EditState(title: string, album: string, duration: string, albumArt: string, key: string,
                                 tempo: string, lyricsText: string, lyricsFile: Option<File>, isLoading: bool)

  /** `song.tempo?.toString() || ''`, with a tempo written as its integer part. */
  function TempoText(tempo: Option<real>): (r: string)
    ensures tempo.None? <==> r == ""
  {
    if tempo.None? then "" else Clock.IntToString(Clock.Trunc(tempo.value))
  }

  /** The form the song opens it with: key 'none' and empty text stand for missing values. */
  function Opened(song: Song): (r: EditState)
    ensures r.key == (if TruthyString(song.key) then song.key.value else "none")
    ensures r.lyricsText == (if TruthyString(song.lyricsText) then song.lyricsText.value else "")
    ensures r.lyricsFile.None? && !r.isLoading
  {
    EditState(song.title, song.album, song.duration, song.albumArt,
              if TruthyString(song.key) then song.key.value else "none",
              TempoText(song.tempo),
              if TruthyString(song.lyricsText) then song.lyricsText.value else "",
              None, false)
  }

  /** handleAlbumArtChange: a chosen image is shown through its object URL. */
  function AlbumArtChosen(s: EditState, file: Option<File>, objectUrl: string): (r: EditState)
    ensures file.None? ==> r == s
    ensures file.Some? ==> r == s.(albumArt := objectUrl)
  {
    if file.None? then s else s.(albumArt := objectUrl)
  }

  /**
   * handleLyricsFileChange: a chosen file is kept for upload; the result
   * says whether the file is read as text, which only a text/plain file is.
   */
  function LyricsFileChosen(s: EditState, file: Option<File>): (r: (EditState, bool))
    ensures file.None? ==> r == (s, false)
    ensures file.Some? ==> r.0 == s.(lyricsFile := file) && (r.1 <==> file.value.mimeType == "text/plain")
  {
    if file.None? then (s, false) else (s.(lyricsFile := file), file.value.mimeType == "text/plain")
  }

  /** The reader's onload: the file's text replaces the lyrics. */
  function LyricsRead(s: EditState, text: string): (r: EditState)
    ensures r == s.(lyricsText := text)
  {
    s.(lyricsText := text)
  }

  /** The storage name of an uploaded lyrics file: `${Date.now()}-${name}`. */
  function LyricsFileName(now: nat, name: string): (r: string)
    ensures |r| > |name| && r[|r| - |name|..] == name
  {
    var r := NatToString(now) + "-" + name;
    assert r[|r| - |name|..] == name;
    r
  }

  /** The lyrics file URL saved: the upload's URL when a file was chosen and uploaded, else the song's. */
  function LyricsUrl(s: EditState, song: Song, uploaded: Option<string>): (r: Option<string>)
    ensures s.lyricsFile.Some? && TruthyString(uploaded) ==> r == uploaded
    ensures s.lyricsFile.None? || !TruthyString(uploaded) ==> r == song.lyricsFileUrl
  {
    if s.lyricsFile.Some? && TruthyString(uploaded) then uploaded else song.lyricsFileUrl
  }

  /** `tempo ? parseInt(tempo) : undefined`, a NaN being saved as no tempo. */
  function SavedTempo(tempo: string): (r: Option<real>)
  {
    if tempo == "" then None
    else
      match ParseInt(tempo)
      case NaN => None
      case Num(n) => Some(n as real)
  }

  /** An empty string is saved as undefined. */
  function OrUndefined(x: Option<string>): (r: Option<string>)
    ensures r.None? <==> !TruthyString(x)
    ensures r.Some? ==> r == x
  {
    if TruthyString(x) then x else None
  }

  /**
   * handleSubmit: nothing is saved while the title, album or duration is
   * empty; otherwise the song is saved with the form's fields over its own.
   */
  function Submit(s: EditState, song: Song, uploaded: Option<string>): (r: Option<Song>)
    ensures r.None? <==> s.title == "" || s.album == "" || s.duration == ""
  {
    if s.title == "" || s.album == "" || s.duration == "" then None
    else
      var url := LyricsUrl(s, song, uploaded);
      Some(song.(title := s.title, album := s.album, duration := s.duration, albumArt := s.albumArt,
                 key := if s.key == "none" then None else Some(s.key),
                 tempo := SavedTempo(s.tempo),
                 lyricsText := OrUndefined(Some(s.lyricsText)),
                 lyricsFileUrl := OrUndefined(url),
                 hasLyrics := Some(s.lyricsText != "" || TruthyString(url))))
  }

  /**
   * A saved song keeps its id, artist, audio file and upload date; its key
   * is the form's unless 'none'; its lyrics flag is set exactly when it has
   * lyrics text or a lyrics file URL, and those are kept only when not empty.
   */
  lemma SubmitSaves(s: EditState, song: Song, uploaded: Option<string>)
    requires Submit(s, song, uploaded).Some?
    ensures var r := Submit(s, song, uploaded).value;
            r.id == song.id && r.artist == song.artist && r.audioFile == song.audioFile &&
            r.uploadDate == song.uploadDate &&
            r.title == s.title && r.album == s.album && r.duration == s.duration && r.albumArt == s.albumArt &&
            (r.key.None? <==> s.key == "none") && (r.key.Some? ==> r.key.value == s.key) &&
            (s.tempo == "" ==> r.tempo.None?) &&
            (r.hasLyrics == Some(TruthyString(r.lyricsText) || TruthyString(r.lyricsFileUrl))) &&
            (r.lyricsText.Some? <==> s.lyricsText != "")
  {
  }

  /** A typed tempo is saved as the number parseInt reads, and one without digits as no tempo. */
  lemma SavedTempoReads(n: nat, rest: string)
    ensures SavedTempo(NatToString(n)) == Some(n as real)
    ensures SavedTempo("") == None
    ensures |rest| > 0 && DigitValue(rest[0]) >= 10 && !IsJsSpace(rest[0]) && rest[0] != '-' && rest[0] != '+' ==>
              SavedTempo(rest) == None
  {
    ParseIntOfNatToString(n);
    if |rest| > 0 && DigitValue(rest[0]) >= 10 && !IsJsSpace(rest[0]) && rest[0] != '-' && rest[0] != '+' {
      ParseIntOfNonNumeric(rest);
    }
  }

  /**
   * Opening a complete song and saving it unchanged gives the song back,
   * up to the lyrics fields, which come back normalised: a whole tempo and a
   * key other than 'none' survive.
   */
  lemma SaveUnchanged(song: Song, n: nat)
    requires song.title != "" && song.album != "" && song.duration != ""
    requires song.tempo == Some(n as real) || song.tempo.None?
    requires song.key.None? || song.key.value != "none"
    ensures var r := Submit(Opened(song), song, None);
            r.Some? &&
            r.value.(key := song.key, lyricsText := song.lyricsText, lyricsFileUrl := song.lyricsFileUrl,
                     hasLyrics := song.hasLyrics) == song &&
            (r.value.key == song.key || (song.key == Some("") && r.value.key.None?))
  {
    if song.tempo.Some? {
      assert Clock.Trunc(n as real) == n;
      ParseIntOfNatToString(n);
      assert SavedTempo(Opened(song).tempo) == song.tempo;
    }
  }

  /** A song whose own lyrics text is not empty stays flagged as having lyrics. */
  lemma SaveKeepsLyricsFlag(s: EditState, song: Song)
    requires s == Opened(song) && TruthyString(song.lyricsText)
    requires Submit(s, song, None).Some?
    ensures Submit(s, song, None).value.hasLyrics == Some(true)
    ensures Submit(s, song, None).value.lyricsText == song.lyricsText
  {
  }
}
