// The album upload of src/hooks/useAlbumUpload.ts: the album name taken
// from the first file, the metadata each track gets, and the sequential
// upload loop with its progress counter. What the browser and the storage
// report is given as inputs: for each file a Probe (whether the audio
// element loaded, its duration, the parsed tags) and the public URL the
// audio upload returned (None for null). formatDuration is a parameter:
// src/utils/audioAnalysis/utils.ts is not part of this model.

module AlbumUpload {
  import opened Wrappers
  import opened Strings
  import opened Songs
  import opened FileNames

  /** What music-metadata parses: common.title, common.album and format.duration. */
  datatype Tags = Tags(title: Option<string>, album: Option<string>, duration: Option<real>)

  /**
   * How a file fared in the browser: `loaded` is false when the audio
   * element fired 'error'; `tags` is None when parsing failed.
   */
  datatype Probe = Probe(loaded: bool, audioDuration: Option<real>, tags: Option<Tags>)

  /** The Partial<Song> extractMetadataFromFile resolves to. */
  datatype FileMetadata = FileMetadata(title: string, artist: string, album: string, duration: string)

  /** An Omit<Song, 'id'> as uploadAlbum hands it to onUpload. */
  datatype Draft = Draft(title: string, artist: string, album: string, duration: string,
                         albumArt: string, audioFile: string, uploadDate: int)

  /** extractMetadataFromFile's defaultData. */
  function DefaultMetadata(fileName: string, albumName: string): FileMetadata
  {
    FileMetadata(DefaultTitle(fileName), Artist, albumName, "0:00")
  }

  /**
   * extractMetadataFromFile: the defaults, then the audio element's
   * duration when truthy, then the truthy parsed title, album and duration.
   */
  function Extracted(fileName: string, albumName: string, probe: Probe, formatDuration: real -> string): (r: FileMetadata)
    ensures r.artist == Artist
  {
    var defaults := DefaultMetadata(fileName, albumName);
    if !probe.loaded then defaults
    else
      var afterAudio := if TruthyNumber(probe.audioDuration) then defaults.(duration := formatDuration(probe.audioDuration.value)) else defaults;
      if probe.tags.None? then afterAudio
      else
        var tags := probe.tags.value;
        var withTitle := if TruthyString(tags.title) then afterAudio.(title := tags.title.value) else afterAudio;
        var withAlbum := if TruthyString(tags.album) then withTitle.(album := tags.album.value) else withTitle;
        if TruthyNumber(tags.duration) then withAlbum.(duration := formatDuration(tags.duration.value)) else withAlbum
  }

  /** Each field comes from the parsed tags when they give a truthy value, else from the audio element or the defaults. */
  lemma ExtractedFields(fileName: string, albumName: string, probe: Probe, formatDuration: real -> string)
    ensures var r := Extracted(fileName, albumName, probe, formatDuration);
            var tagged := probe.loaded && probe.tags.Some?;
            (!probe.loaded ==> r == DefaultMetadata(fileName, albumName)) &&
            (tagged && TruthyString(probe.tags.value.title) ==> r.title == probe.tags.value.title.value) &&
            (!(tagged && TruthyString(probe.tags.value.title)) ==> r.title == DefaultTitle(fileName)) &&
            (tagged && TruthyString(probe.tags.value.album) ==> r.album == probe.tags.value.album.value) &&
            (!(tagged && TruthyString(probe.tags.value.album)) ==> r.album == albumName) &&
            (tagged && TruthyNumber(probe.tags.value.duration) ==> r.duration == formatDuration(probe.tags.value.duration.value)) &&
            (probe.loaded && !(tagged && TruthyNumber(probe.tags.value.duration)) && TruthyNumber(probe.audioDuration) ==>
               r.duration == formatDuration(probe.audioDuration.value)) &&
            (!probe.loaded || (!(tagged && TruthyNumber(probe.tags.value.duration)) && !TruthyNumber(probe.audioDuration)) ==>
               r.duration == "0:00")
  {
  }

  /** The album name after files are chosen: a name already set stays, an unset one is derived from the first file. */
  function NameAfterFilesChange(files: seq<string>, albumName: string): string
  {
    if |files| > 0 && albumName == "" then AlbumNameFrom(files[0]) else albumName
  }

  /**
   * A name already set stays; with no name set the first file names the
   * album, and with no files the name stays unset. Once there are files,
   * the album has a name.
   */
  lemma NameAfterFilesChangeCases(files: seq<string>, albumName: string)
    ensures albumName != "" ==> NameAfterFilesChange(files, albumName) == albumName
    ensures albumName == "" && |files| > 0 ==> NameAfterFilesChange(files, albumName) == AlbumNameFrom(files[0])
    ensures albumName == "" && |files| == 0 ==> NameAfterFilesChange(files, albumName) == ""
    ensures |files| > 0 ==> NameAfterFilesChange(files, albumName) != ""
  {
  }

  /** The album art URL: the uploaded art's URL when there was art and it uploaded, else the default picture. */
  function ArtUrl(albumArtFile: Option<string>, uploaded: Option<string>): (r: string)
    ensures albumArtFile.Some? && TruthyString(uploaded) ==> r == uploaded.value
    ensures !(albumArtFile.Some? && TruthyString(uploaded)) ==> r == DefaultArt
  {
    if albumArtFile.Some? && TruthyString(uploaded) then uploaded.value else DefaultArt
  }

  /** The song data for one uploaded track, every field falling back to a default. */
  function DraftOf(fileName: string, metadata: FileMetadata, albumName: string, artUrl: string, audioUrl: string, now: int): (r: Draft)
  {
    Draft(Or(metadata.title, StripExtension(fileName)), Or(metadata.artist, Artist), Or(metadata.album, albumName),
          Or(metadata.duration, "0:00"), artUrl, audioUrl, now)
  }

  /** A draft of extracted metadata has the band as artist and a duration; its title falls back to the name without extension. */
  lemma DraftOfExtracted(fileName: string, albumName: string, probe: Probe, formatDuration: real -> string,
                         artUrl: string, audioUrl: string, now: int)
    ensures var d := DraftOf(fileName, Extracted(fileName, albumName, probe, formatDuration), albumName, artUrl, audioUrl, now);
            d.artist == Artist && d.albumArt == artUrl && d.audioFile == audioUrl && d.uploadDate == now &&
            (StripExtension(fileName) != "" ==> d.title != "") && (albumName != "" ==> d.album != "")
  {
  }

  /** How many of the first k audio uploads gave a URL. */
  function UploadedCount(audioUrls: nat -> Option<string>, k: nat): (c: nat)
    ensures c <= k
  {
    if k == 0 then 0 else UploadedCount(audioUrls, k - 1) + (if TruthyString(audioUrls(k - 1)) then 1 else 0)
  }

  /** When every upload gives a URL, all of them count. */
  lemma {:induction false} UploadedCountAll(audioUrls: nat -> Option<string>, k: nat)
    requires forall i :: 0 <= i < k ==> TruthyString(audioUrls(i))
    ensures UploadedCount(audioUrls, k) == k
  {
    if k > 0 {
      UploadedCountAll(audioUrls, k - 1);
      assert TruthyString(audioUrls(k - 1));
    }
  }

  /** The tracks onUpload receives from the first k files: those whose audio upload gave a URL. */
  function Drafts(files: seq<string>, albumName: string, artUrl: string, probes: nat -> Probe, audioUrls: nat -> Option<string>,
                  formatDuration: real -> string, now: int, k: nat): (r: seq<Draft>)
    requires k <= |files|
    ensures |r| == UploadedCount(audioUrls, k)
  {
    if k == 0 then []
    else
      var i := k - 1;
      var rest := Drafts(files, albumName, artUrl, probes, audioUrls, formatDuration, now, i);
      if TruthyString(audioUrls(i)) then
        rest + [DraftOf(files[i], Extracted(files[i], albumName, probes(i), formatDuration), albumName, artUrl, audioUrls(i).value, now)]
      else rest
  }

  /** One more file adds its track exactly when its audio upload gave a URL. */
  lemma DraftsStep(files: seq<string>, albumName: string, artUrl: string, probes: nat -> Probe,
                   audioUrls: nat -> Option<string>, formatDuration: real -> string, now: int, i: nat)
    requires i < |files|
    ensures Drafts(files, albumName, artUrl, probes, audioUrls, formatDuration, now, i + 1) ==
            Drafts(files, albumName, artUrl, probes, audioUrls, formatDuration, now, i) +
            if TruthyString(audioUrls(i))
            then [DraftOf(files[i], Extracted(files[i], albumName, probes(i), formatDuration), albumName, artUrl, audioUrls(i).value, now)]
            else []
  {
  }

  /** Every uploaded track has the album art, an audio file and the band as artist. */
  lemma {:induction false} DraftsWellFormed(files: seq<string>, albumName: string, artUrl: string, probes: nat -> Probe,
                                            audioUrls: nat -> Option<string>, formatDuration: real -> string, now: int, k: nat)
    requires k <= |files|
    ensures forall d :: d in Drafts(files, albumName, artUrl, probes, audioUrls, formatDuration, now, k) ==>
              d.albumArt == artUrl && d.audioFile != "" && d.artist == Artist && d.uploadDate == now
  {
    if k > 0 {
      DraftsWellFormed(files, albumName, artUrl, probes, audioUrls, formatDuration, now, k - 1);
    }
  }

  /** When every audio upload succeeds, every file becomes a track. */
  lemma DraftsAllUploaded(files: seq<string>, albumName: string, artUrl: string, probes: nat -> Probe,
                                             audioUrls: nat -> Option<string>, formatDuration: real -> string, now: int, k: nat)
    requires k <= |files|
    requires forall i :: 0 <= i < k ==> TruthyString(audioUrls(i))
    ensures |Drafts(files, albumName, artUrl, probes, audioUrls, formatDuration, now, k)| == k
  {
    UploadedCountAll(audioUrls, k);
  }

  /** The progress values the loop reports: 1, 2, ..., k. */
  function ProgressSteps(k: nat): (r: seq<nat>)
    ensures |r| == k
  {
    if k == 0 then [] else ProgressSteps(k - 1) + [k]
  }

  /** After file j, j + 1 of the files are done. */
  lemma {:induction false} ProgressStepsCount(k: nat)
    ensures forall j :: 0 <= j < k ==> ProgressSteps(k)[j] == j + 1
  {
    if k > 0 {
      ProgressStepsCount(k - 1);
      assert forall j :: 0 <= j < k - 1 ==> ProgressSteps(k)[j] == ProgressSteps(k - 1)[j];
    }
  }

  /** The state of the hook: the chosen files, the form fields and the upload progress. */
  datatype UploadState = UploadState(albumFiles: seq<string>, albumName: string, albumArt: string,
                                     albumArtFile: Option<string>, isUploading: bool,
                                     progressCurrent: nat, progressTotal: nat)

  /** The state the hook starts in, and returns to after an upload. */
  const Initial := UploadState([], "", "", None, false, 0, 0)

  class Uploader {
    var albumFiles: seq<string>
    var albumName: string
    var albumArt: string
    var albumArtFile: Option<string>
    var isUploading: bool
    var progressCurrent: nat
    var progressTotal: nat

    function State(): UploadState
      reads this
    {
      UploadState(albumFiles, albumName, albumArt, albumArtFile, isUploading, progressCurrent, progressTotal)
    }

    constructor ()
      ensures State() == Initial
    {
      albumFiles := [];
      albumName := "";
      albumArt := "";
      albumArtFile := None;
      isUploading := false;
      progressCurrent := 0;
      progressTotal := 0;
    }

    /** handleAlbumFilesChange: the files are kept; an unset album name is derived from the first one. */
    method AlbumFilesChange(files: seq<string>)
      modifies this
      ensures State() == old(State()).(albumFiles := files, albumName := NameAfterFilesChange(files, old(albumName)))
    {
      albumFiles := files;
      albumName := NameAfterFilesChange(files, albumName);
    }

    /** setAlbumName. */
    method SetAlbumName(name: string)
      modifies this
      ensures State() == old(State()).(albumName := name)
    {
      albumName := name;
    }

    /** handleAlbumArtChange: a chosen picture is kept with its object URL; no choice changes nothing. */
    method AlbumArtChange(file: Option<string>, objectUrl: string)
      modifies this
      ensures file.Some? ==> State() == old(State()).(albumArtFile := file, albumArt := objectUrl)
      ensures file.None? ==> State() == old(State())
    {
      if file.Some? {
        albumArtFile := file;
        albumArt := objectUrl;
      }
    }

    /**
     * uploadAlbum: with no files nothing happens. Otherwise the art URL is
     * settled, the files are uploaded in order (UploadTracks) and the hook
     * returns to its initial state.
     */
    method UploadAlbum(uploadedArt: Option<string>, probes: nat -> Probe, audioUrls: nat -> Option<string>,
                       formatDuration: real -> string, now: int)
      returns (uploaded: seq<Draft>, progress: seq<nat>)
      modifies this
      ensures |old(albumFiles)| == 0 ==> uploaded == [] && progress == [] && State() == old(State())
      ensures |old(albumFiles)| > 0 ==>
                uploaded == Drafts(old(albumFiles), old(albumName), ArtUrl(old(albumArtFile), uploadedArt), probes, audioUrls,
                                   formatDuration, now, |old(albumFiles)|)
      ensures |old(albumFiles)| > 0 ==> progress == ProgressSteps(|old(albumFiles)|) && State() == Initial
    {
      if |albumFiles| == 0 {
        return [], [];
      }
      var files, name, artUrl := albumFiles, albumName, ArtUrl(albumArtFile, uploadedArt);
      isUploading := true;
      progressCurrent, progressTotal := 0, |files|;
      uploaded, progress := UploadTracks(files, name, artUrl, probes, audioUrls, formatDuration, now);
      albumFiles := [];
      albumName := "";
      albumArt := "";
      albumArtFile := None;
      isUploading := false;
      progressCurrent, progressTotal := 0, 0;
    }
  }

  /**
   * The loop of uploadAlbum: the files are processed in order, each one
   * whose audio upload gives a URL is handed on (`uploaded`), and after
   * file i the progress i + 1 is reported.
   */
  method UploadTracks(files: seq<string>, albumName: string, artUrl: string, probes: nat -> Probe,
                      audioUrls: nat -> Option<string>, formatDuration: real -> string, now: int)
    returns (uploaded: seq<Draft>, progress: seq<nat>)
    ensures uploaded == Drafts(files, albumName, artUrl, probes, audioUrls, formatDuration, now, |files|)
    ensures progress == ProgressSteps(|files|)
  {
    uploaded := [];
    progress := [];
    var i := 0;
    while i < |files|
      invariant 0 <= i <= |files|
      invariant uploaded == Drafts(files, albumName, artUrl, probes, audioUrls, formatDuration, now, i)
      invariant progress == ProgressSteps(i)
    {
      DraftsStep(files, albumName, artUrl, probes, audioUrls, formatDuration, now, i);
      var file := files[i];
      var metadata := Extracted(file, albumName, probes(i), formatDuration);
      var audioUrl := audioUrls(i);
      uploaded := uploaded +
                  if TruthyString(audioUrl) then [DraftOf(file, metadata, albumName, artUrl, audioUrl.value, now)] else [];
      progress := progress + [i + 1];
      i := i + 1;
    }
  }
}
