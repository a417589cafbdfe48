// The single-song upload form of src/hooks/useUploadForm.ts: the form
// state, the updates its file handlers make, and the song getFormData
// builds from it. The browser's part is given as inputs: the chosen file's
// name, the duration the audio element reports, what music-metadata parses
// (None when parsing fails) and the object URLs created for pictures.
// formatDuration is a parameter: src/utils/audioAnalysis/utils.ts is not
// part of this model.

module UploadForm {
  import opened Wrappers
  import opened Strings
  import opened Songs
  import opened JsText
  import opened FileNames

  /** The hook's state; files are represented by their names. */
  datatype FormState = FormState(title: string, album: string, duration: string, audioFile: Option<string>,
                                 albumArtFile: Option<string>, albumArtPreview: string, key: string, tempo: string,
                                 isLoading: bool)

  /** The state the form starts in. */
  const Empty := FormState("", "", "", None, None, "", "none", "", false)

  /** What music-metadata parses: common.title, common.album, format.duration and the first picture's object URL. */
  datatype Parsed = Parsed(title: Option<string>, album: Option<string>, duration: Option<real>, pictureUrl: Option<string>)

  /** The name the art file made from an embedded picture gets. */
  const EmbeddedArtName := "album-art.jpg"

  /** The Omit<Song, 'id'> getFormData returns; the tempo is what parseInt gives. */
  datatype NewSong = NewSong(title: string, artist: string, album: string, duration: string, albumArt: string,
                             audioFile: string, uploadDate: int, key: Option<string>, tempo: Option<Number>)

  /** The start of handleAudioFileChange: no file changes nothing; a file is kept and loading begins. */
  function AudioFileChosen(s: FormState, file: Option<string>): (r: FormState)
    ensures file.None? ==> r == s
    ensures file.Some? ==> r == s.(audioFile := file, isLoading := true)
  {
    if file.None? then s else s.(isLoading := true, audioFile := file)
  }

  /**
   * The 'loadedmetadata' listener: a truthy duration is formatted, and the
   * title becomes the file name without its extension when the title the
   * handler saw (`seen`) was empty.
   */
  function MetadataLoaded(s: FormState, seen: FormState, fileName: string, audioDuration: Option<real>,
                          formatDuration: real -> string): (r: FormState)
    ensures r.album == s.album && r.audioFile == s.audioFile && r.albumArtFile == s.albumArtFile
    ensures r.albumArtPreview == s.albumArtPreview && r.key == s.key && r.tempo == s.tempo && r.isLoading == s.isLoading
  {
    var withDuration := if TruthyNumber(audioDuration) then s.(duration := formatDuration(audioDuration.value)) else s;
    if seen.title == "" then withDuration.(title := StripExtension(fileName)) else withDuration
  }

  /**
   * A title the handler saw is never replaced; an empty one becomes the
   * file name without its extension. The duration follows the audio
   * element only when it reports a truthy one.
   */
  lemma MetadataLoadedTitle(s: FormState, seen: FormState, fileName: string, audioDuration: Option<real>,
                            formatDuration: real -> string)
    ensures var r := MetadataLoaded(s, seen, fileName, audioDuration, formatDuration);
            (seen.title != "" ==> r.title == s.title) &&
            (seen.title == "" ==> r.title == StripExtension(fileName) && |r.title| <= |fileName|) &&
            (TruthyNumber(audioDuration) ==> r.duration == formatDuration(audioDuration.value)) &&
            (!TruthyNumber(audioDuration) ==> r.duration == s.duration)
  {
  }

  /** A file "name.ext" on an empty form gets the title "name". */
  lemma MetadataLoadedNamesFile(s: FormState, seen: FormState, base: string, ext: string, audioDuration: Option<real>,
                                formatDuration: real -> string)
    requires seen.title == ""
    requires |ext| > 0 && forall j :: 0 <= j < |ext| ==> Plain(ext[j])
    ensures MetadataLoaded(s, seen, base + "." + ext, audioDuration, formatDuration).title == base
  {
    StripExtensionOfNamed(base, ext);
  }

  /**
   * The music-metadata step: when parsing fails nothing changes;
   * otherwise a truthy parsed title, album or duration fills the field only
   * when it was empty when the handler ran, and an embedded picture
   * becomes the preview and the art file.
   */
  function TagsParsed(s: FormState, seen: FormState, parsed: Option<Parsed>, formatDuration: real -> string): (r: FormState)
    ensures r.audioFile == s.audioFile && r.key == s.key && r.tempo == s.tempo && r.isLoading == s.isLoading
  {
    if parsed.None? then s
    else
      var p := parsed.value;
      var t := if TruthyString(p.title) && seen.title == "" then s.(title := p.title.value) else s;
      var a := if TruthyString(p.album) && seen.album == "" then t.(album := p.album.value) else t;
      var d := if TruthyNumber(p.duration) && seen.duration == "" then a.(duration := formatDuration(p.duration.value)) else a;
      if p.pictureUrl.Some? then d.(albumArtPreview := p.pictureUrl.value, albumArtFile := Some(EmbeddedArtName)) else d
  }

  /** Parsed tags never replace a field the handler saw filled, and fill an empty one with a truthy tag. */
  lemma TagsParsedFillsOnlyEmpty(s: FormState, seen: FormState, parsed: Option<Parsed>, formatDuration: real -> string)
    ensures var r := TagsParsed(s, seen, parsed, formatDuration);
            (seen.title != "" || parsed.None? || !TruthyString(parsed.value.title) ==> r.title == s.title) &&
            (seen.album != "" || parsed.None? || !TruthyString(parsed.value.album) ==> r.album == s.album) &&
            (seen.duration != "" || parsed.None? || !TruthyNumber(parsed.value.duration) ==> r.duration == s.duration) &&
            (parsed.Some? && seen.title == "" && TruthyString(parsed.value.title) ==> r.title == parsed.value.title.value) &&
            (parsed.Some? && seen.album == "" && TruthyString(parsed.value.album) ==> r.album == parsed.value.album.value) &&
            (parsed.Some? && seen.duration == "" && TruthyNumber(parsed.value.duration) ==>
               r.duration == formatDuration(parsed.value.duration.value))
  {
  }

  /** An embedded picture replaces the art; without one (or when parsing fails) the art stays. */
  lemma TagsParsedArt(s: FormState, seen: FormState, parsed: Option<Parsed>, formatDuration: real -> string)
    ensures var r := TagsParsed(s, seen, parsed, formatDuration);
            (parsed.Some? && parsed.value.pictureUrl.Some? ==>
               r.albumArtPreview == parsed.value.pictureUrl.value && r.albumArtFile == Some(EmbeddedArtName)) &&
            (parsed.None? || parsed.value.pictureUrl.None? ==> r.albumArtPreview == s.albumArtPreview && r.albumArtFile == s.albumArtFile)
  {
  }

  /** The finally block: loading ends. */
  function LoadingDone(s: FormState): (r: FormState)
    ensures r == s.(isLoading := false)
  {
    s.(isLoading := false)
  }

  /** handleAlbumArtChange: no file changes nothing; a file becomes the art with its object URL as preview. */
  function AlbumArtChosen(s: FormState, file: Option<string>, objectUrl: string): (r: FormState)
    ensures file.None? ==> r == s
    ensures file.Some? ==> r == s.(albumArtFile := file, albumArtPreview := objectUrl)
  {
    if file.None? then s else s.(albumArtFile := file, albumArtPreview := objectUrl)
  }

  /** getFormData. */
  function FormData(s: FormState, now: int): (r: NewSong)
    ensures r.title == s.title && r.album == s.album && r.duration == s.duration && r.uploadDate == now
    ensures r.artist == Artist && r.audioFile == ""
    ensures s.albumArtPreview != "" ==> r.albumArt == s.albumArtPreview
    ensures s.albumArtPreview == "" ==> r.albumArt == DefaultArt
    ensures r.key.None? <==> s.key == "none"
    ensures r.key.Some? ==> r.key.value == s.key
    ensures r.tempo.None? <==> s.tempo == ""
  {
    NewSong(s.title, Artist, s.album, s.duration, Or(s.albumArtPreview, DefaultArt), "", now,
            if s.key == "none" then None else Some(s.key),
            if s.tempo != "" then Some(ParseInt(s.tempo)) else None)
  }

  /** A tempo typed as the decimal digits of n is submitted as n. */
  lemma FormDataTempoOfNumber(s: FormState, now: int, n: nat)
    requires s.tempo == NatToString(n)
    ensures FormData(s, now).tempo == Some(Num(n))
  {
    ParseIntOfNatToString(n);
  }

  /** A tempo that does not start like a number is submitted as NaN, not left out. */
  lemma FormDataTempoNaN(s: FormState, now: int)
    requires |s.tempo| > 0 && DigitValue(s.tempo[0]) >= 10 && !IsJsSpace(s.tempo[0])
    requires s.tempo[0] != '-' && s.tempo[0] != '+'
    ensures FormData(s, now).tempo == Some(NaN)
  {
    ParseIntOfNonNumeric(s.tempo);
  }

  /** The submitted album art is never empty. */
  lemma FormDataHasArt(s: FormState, now: int)
    ensures FormData(s, now).albumArt != ""
  {
  }

  /**
   * A whole audio-file change on an empty form, with the audio element's
   * event before the parse: "name.ext" with no tags gives the title "name",
   * and loading is over at the end.
   */
  lemma UploadOfUntaggedFile(base: string, ext: string, audioDuration: Option<real>, formatDuration: real -> string)
    requires |ext| > 0 && forall j :: 0 <= j < |ext| ==> Plain(ext[j])
    ensures var started := AudioFileChosen(Empty, Some(base + "." + ext));
            var loaded := MetadataLoaded(started, Empty, base + "." + ext, audioDuration, formatDuration);
            var r := LoadingDone(TagsParsed(loaded, Empty, Some(Parsed(None, None, None, None)), formatDuration));
            r.title == base && r.audioFile == Some(base + "." + ext) && !r.isLoading && r.key == "none"
  {
    MetadataLoadedNamesFile(AudioFileChosen(Empty, Some(base + "." + ext)), Empty, base, ext, audioDuration, formatDuration);
  }
}
