// The lyrics agent of src/agents/LyricsAgent.ts: the lyrics columns of a
// song row (text, file URL and the has_lyrics flag), the update record each
// handler sends to the database and the row it leaves. The storage upload,
// the database and the clock are inputs: an upload is the public URL it
// returned or None when it failed, and a song missing from the table makes
// the query fail. Undefined fields of an update record are dropped by the
// JSON encoding, so they leave the column as it was.

module LyricsAgent {
  import opened Wrappers
  import opened BaseAgent

  /** The lyrics columns of a song; None is SQL null. */
  datatype LyricsRow = LyricsRow(lyricsText: Option<string>, lyricsFileUrl: Option<string>, hasLyrics: bool)

  /** One column of an update record: left out, or set to a value. */
  datatype Write<T> = Keep | Put(value: T)

  datatype UpdateRecord = UpdateRecord(lyricsText: Write<Option<string>>, lyricsFileUrl: Write<Option<string>>, hasLyrics: bool)

  /** JavaScript truthiness of an optional string. */
  predicate Truthy(s: Option<string>)
  {
    s.Some? && |s.value| > 0
  }

  function Written<T>(old_: T, w: Write<T>): (r: T)
    ensures w.Keep? ==> r == old_
    ensures w.Put? ==> r == w.value
  {
    if w.Put? then w.value else old_
  }

  /** The row an update leaves: written columns replaced, the others kept. */
  function Apply(row: LyricsRow, u: UpdateRecord): (r: LyricsRow)
    ensures r.hasLyrics == u.hasLyrics
    ensures r.lyricsText == Written(row.lyricsText, u.lyricsText)
    ensures r.lyricsFileUrl == Written(row.lyricsFileUrl, u.lyricsFileUrl)
  {
    LyricsRow(Written(row.lyricsText, u.lyricsText), Written(row.lyricsFileUrl, u.lyricsFileUrl), u.hasLyrics)
  }

  /** The flag agrees with the columns: a row has lyrics iff it has a text or a file. */
  predicate Consistent(row: LyricsRow)
  {
    row.hasLyrics == (Truthy(row.lyricsText) || Truthy(row.lyricsFileUrl))
  }

  /**
   * The record handleAddLyrics and addLyrics send: the text, the new file
   * URL (null without a file) and `!!(lyricsText || lyricsFileUrl)`.
   */
  function AddRecord(lyricsText: Option<string>, lyricsFileUrl: Option<string>): (u: UpdateRecord)
    ensures u.hasLyrics <==> Truthy(lyricsText) || Truthy(lyricsFileUrl)
    ensures u.lyricsFileUrl == Put(lyricsFileUrl)
    ensures lyricsText.None? ==> u.lyricsText.Keep?
    ensures lyricsText.Some? ==> u.lyricsText == Put(lyricsText)
  {
    UpdateRecord(if lyricsText.Some? then Put(lyricsText) else Keep, Put(lyricsFileUrl), Truthy(lyricsText) || Truthy(lyricsFileUrl))
  }

  /** Adding a text leaves a consistent row, whatever the row was before. */
  lemma AddKeepsConsistent(row: LyricsRow, lyricsText: Option<string>, lyricsFileUrl: Option<string>)
    requires lyricsText.Some? || !Truthy(row.lyricsText)
    ensures Consistent(Apply(row, AddRecord(lyricsText, lyricsFileUrl)))
  {
  }

  /**
   * handleUpdateLyrics's has_lyrics as written: the given text, the new
   * file URL or the stored file URL; the stored text is not looked at.
   */
  function UpdateHasLyricsAsWritten(lyricsText: Option<string>, newUrl: Option<string>, stored: LyricsRow): (b: bool)
    ensures b <==> Truthy(lyricsText) || Truthy(if Truthy(newUrl) then newUrl else stored.lyricsFileUrl)
  {
    Truthy(lyricsText) || Truthy(newUrl) || Truthy(stored.lyricsFileUrl)
  }

  /**
   * An update without a text or a file keeps the stored text but, as
   * written, clears has_lyrics on a song whose lyrics are that text: a
   * consistent row becomes inconsistent.
   */
  lemma UpdateAsWrittenClearsFlagOfStoredText()
    ensures var stored := LyricsRow(Some("Verse one"), None, true);
            var flag := UpdateHasLyricsAsWritten(None, None, stored);
            Consistent(stored) && !flag &&
            Truthy(Written(stored.lyricsText, Keep)) &&
            !Consistent(Apply(stored, UpdateRecord(Keep, Keep, flag)))
  {
  }

  /**
   * The flag the update evidently intends: the text the row will hold
   * (the given one, else the stored one), the new or the stored file URL.
   */
  function UpdateHasLyrics(lyricsText: Option<string>, newUrl: Option<string>, stored: LyricsRow): (b: bool)
    ensures lyricsText.Some? ==> b == UpdateHasLyricsAsWritten(lyricsText, newUrl, stored)
    ensures lyricsText.None? ==> (b <==> Truthy(stored.lyricsText) || UpdateHasLyricsAsWritten(lyricsText, newUrl, stored))
  {
    Truthy(if lyricsText.Some? then lyricsText else stored.lyricsText) || Truthy(newUrl) || Truthy(stored.lyricsFileUrl)
  }

  /**
   * handleUpdateLyrics's record: has_lyrics (as written, or when
   * `corrected` the intended flag), then lyrics_text only when a text was
   * given and lyrics_file_url only when a new URL exists.
   */
  method BuildUpdateRecord(lyricsText: Option<string>, newUrl: Option<string>, stored: LyricsRow, corrected: bool)
    returns (u: UpdateRecord)
    ensures u.hasLyrics == if corrected then UpdateHasLyrics(lyricsText, newUrl, stored)
                           else UpdateHasLyricsAsWritten(lyricsText, newUrl, stored)
    ensures u.lyricsText.Put? <==> lyricsText.Some?
    ensures u.lyricsText.Put? ==> u.lyricsText.value == lyricsText
    ensures u.lyricsFileUrl.Put? <==> Truthy(newUrl)
    ensures u.lyricsFileUrl.Put? ==> u.lyricsFileUrl.value == newUrl
  {
    var flag := if corrected then UpdateHasLyrics(lyricsText, newUrl, stored)
                else UpdateHasLyricsAsWritten(lyricsText, newUrl, stored);
    u := UpdateRecord(Keep, Keep, flag);
    if lyricsText.Some? {
      u := u.(lyricsText := Put(lyricsText));
    }
    if Truthy(newUrl) {
      u := u.(lyricsFileUrl := Put(newUrl));
    }
  }

  /**
   * Applying an update record with the intended flag keeps a consistent
   * row consistent, and sets the flag exactly when text or file remain.
   */
  lemma UpdateKeepsConsistent(stored: LyricsRow, lyricsText: Option<string>, newUrl: Option<string>, u: UpdateRecord)
    requires Consistent(stored)
    requires u.hasLyrics == UpdateHasLyrics(lyricsText, newUrl, stored)
    requires u.lyricsText == (if lyricsText.Some? then Put(lyricsText) else Keep)
    requires u.lyricsFileUrl == (if Truthy(newUrl) then Put(newUrl) else Keep)
    ensures Consistent(Apply(stored, u))
  {
  }

  class Lyrics {
    const agent: Agent
    var songs: map<string, LyricsRow>

    constructor (freshId: string)
      ensures fresh(agent) && agent.id == freshId && agent.tasks == map[]
      ensures !agent.isInitialized && agent.messageHandlers == {}
      ensures songs == map[]
    {
      agent := new Agent("LyricsAgent", "Handles lyrics input (text/PDF), viewer modal, fullscreen support", freshId);
      songs := map[];
    }

    /** The types registerMessageHandlers installs. */
    static const HandledTypes: set<string> := {"lyrics:add", "lyrics:update", "lyrics:get"}

    /** Every stored row's flag agrees with its columns. */
    ghost predicate AllConsistent()
      reads this
    {
      forall id :: id in songs ==> Consistent(songs[id])
    }

    /** The song:updated notice sent to the realtime agent after a successful write. */
    function SongUpdated(payload: string, freshId: string, now: int): (m: AgentMessage)
      reads this
      ensures m.fromAgentId == agent.id && m.toAgentId == "realtime-agent" && m.messageType == "song:updated"
      ensures m.payload == payload && m.id == freshId && m.timestamp == now
    {
      agent.OutgoingMessage("realtime-agent", "song:updated", payload, freshId, now)
    }

    /**
     * handleAddLyrics: with a file, the upload agent is first sent an
     * upload:lyrics request, then a failed upload fails the task; a song
     * that is not in the table fails it too; otherwise the add record is
     * applied, the task completes, the sender is told and the realtime
     * agent is sent song:updated with the same payload.
     */
    method HandleAddLyrics(message: AgentMessage, songId: string, lyricsText: Option<string>, hasFile: bool,
                           upload: Option<string>, failure: string, rendered: LyricsRow -> string,
                           uploadPayload: string, uploadId: string, taskId: string, replyId: string,
                           broadcastId: string, now: int)
      returns (uploadRequest: Option<AgentMessage>, reply: AgentMessage, broadcast: Option<AgentMessage>)
      modifies this, agent
      ensures uploadRequest == if hasFile then Some(agent.OutgoingMessage("upload-agent", "upload:lyrics", uploadPayload, uploadId, now)) else None
      ensures var ok := (!hasFile || upload.Some?) && songId in old(songs);
              var url := if hasFile then upload else None;
              (ok ==> songs == old(songs)[songId := Apply(old(songs)[songId], AddRecord(lyricsText, url))] &&
                      agent.tasks == old(agent.tasks)[taskId := CompletedTask(agent.id, taskId, "lyrics:add:" + songId, Some(rendered(songs[songId])), now)] &&
                      reply == agent.OutgoingMessage(message.fromAgentId, "lyrics:add:completed", rendered(songs[songId]), replyId, now) &&
                      broadcast == Some(SongUpdated(rendered(songs[songId]), broadcastId, now))) &&
              (!ok ==> songs == old(songs) &&
                       agent.tasks == old(agent.tasks)[taskId := FailedTask(agent.id, taskId, "lyrics:add:" + songId, failure, now)] &&
                       reply == agent.OutgoingMessage(message.fromAgentId, "lyrics:add:failed", failure, replyId, now) &&
                       broadcast.None?)
    {
      uploadRequest := None;
      if hasFile {
        uploadRequest := Some(agent.OutgoingMessage("upload-agent", "upload:lyrics", uploadPayload, uploadId, now));
      }
      var row := AddLyricsRow(songId, lyricsText, hasFile, upload);
      if row.None? {
        agent.FailTask(taskId, "lyrics:add:" + songId, failure, now);
        reply := agent.OutgoingMessage(message.fromAgentId, "lyrics:add:failed", failure, replyId, now);
        broadcast := None;
      } else {
        agent.CompleteTask(taskId, "lyrics:add:" + songId, Some(rendered(row.value)), now);
        reply := agent.OutgoingMessage(message.fromAgentId, "lyrics:add:completed", rendered(row.value), replyId, now);
        broadcast := Some(SongUpdated(rendered(row.value), broadcastId, now));
      }
    }

    /** The upload and the update shared by handleAddLyrics and addLyrics: the new row, or None on an error. */
    method AddLyricsRow(songId: string, lyricsText: Option<string>, hasFile: bool, upload: Option<string>)
      returns (row: Option<LyricsRow>)
      modifies this
      ensures var ok := (!hasFile || upload.Some?) && songId in old(songs);
              var url := if hasFile then upload else None;
              (row.Some? <==> ok) &&
              (ok ==> songs == old(songs)[songId := Apply(old(songs)[songId], AddRecord(lyricsText, url))] && row.value == songs[songId]) &&
              (!ok ==> songs == old(songs))
    {
      var url: Option<string> := None;
      if hasFile {
        if upload.None? {
          return None;
        }
        url := upload;
      }
      if songId !in songs {
        return None;
      }
      songs := songs[songId := Apply(songs[songId], AddRecord(lyricsText, url))];
      row := Some(songs[songId]);
    }

    /**
     * addLyrics: as handleAddLyrics under its own task type, without the
     * upload:lyrics request; the new row is returned and song:updated sent,
     * an error is rethrown (None) and nothing is sent.
     */
    method AddLyrics(songId: string, lyricsText: string, hasFile: bool, upload: Option<string>, failure: string,
                     rendered: LyricsRow -> string, taskId: string, broadcastId: string, now: int)
      returns (row: Option<LyricsRow>, broadcast: Option<AgentMessage>)
      modifies this, agent
      ensures var ok := (!hasFile || upload.Some?) && songId in old(songs);
              var url := if hasFile then upload else None;
              (row.Some? <==> ok) && (broadcast.Some? <==> ok) &&
              (ok ==> songs == old(songs)[songId := Apply(old(songs)[songId], AddRecord(Some(lyricsText), url))] && row.value == songs[songId] &&
                      agent.tasks == old(agent.tasks)[taskId := CompletedTask(agent.id, taskId, "public:lyrics:add:" + songId, Some(rendered(row.value)), now)] &&
                      broadcast.value == SongUpdated(rendered(row.value), broadcastId, now)) &&
              (!ok ==> songs == old(songs) &&
                       agent.tasks == old(agent.tasks)[taskId := FailedTask(agent.id, taskId, "public:lyrics:add:" + songId, failure, now)])
    {
      row := AddLyricsRow(songId, Some(lyricsText), hasFile, upload);
      if row.None? {
        agent.FailTask(taskId, "public:lyrics:add:" + songId, failure, now);
        broadcast := None;
      } else {
        agent.CompleteTask(taskId, "public:lyrics:add:" + songId, Some(rendered(row.value)), now);
        broadcast := Some(SongUpdated(rendered(row.value), broadcastId, now));
      }
    }

    /**
     * handleUpdateLyrics: a failed upload or a song not in the table fails
     * the task; otherwise the built record is applied to the stored row,
     * the sender is told and the realtime agent is sent song:updated.
     * The flag stored is the one written in the source unless `corrected`
     * asks for the intended one; only the intended flag keeps every row
     * consistent (UpdateAsWrittenClearsFlagOfStoredText shows the other
     * can break it).
     */
    method HandleUpdateLyrics(message: AgentMessage, songId: string, lyricsText: Option<string>, hasFile: bool,
                              upload: Option<string>, failure: string, rendered: LyricsRow -> string,
                              taskId: string, replyId: string, broadcastId: string, now: int, corrected: bool)
      returns (reply: AgentMessage, broadcast: Option<AgentMessage>)
      modifies this, agent
      ensures var ok := (!hasFile || upload.Some?) && songId in old(songs);
              var url := if hasFile then upload else None;
              (broadcast.Some? <==> ok) &&
              (ok ==> songId in songs && songs.Keys == old(songs).Keys &&
                      (forall id :: id in songs && id != songId ==> songs[id] == old(songs)[id]) &&
                      songs[songId].hasLyrics == (if corrected then UpdateHasLyrics(lyricsText, url, old(songs)[songId])
                                                  else UpdateHasLyricsAsWritten(lyricsText, url, old(songs)[songId])) &&
                      songs[songId].lyricsText == (if lyricsText.Some? then lyricsText else old(songs)[songId].lyricsText) &&
                      songs[songId].lyricsFileUrl == (if Truthy(url) then url else old(songs)[songId].lyricsFileUrl) &&
                      agent.tasks == old(agent.tasks)[taskId := CompletedTask(agent.id, taskId, "lyrics:update:" + songId, Some(rendered(songs[songId])), now)] &&
                      reply == agent.OutgoingMessage(message.fromAgentId, "lyrics:update:completed", rendered(songs[songId]), replyId, now) &&
                      broadcast.value == SongUpdated(rendered(songs[songId]), broadcastId, now)) &&
              (!ok ==> songs == old(songs) &&
                       agent.tasks == old(agent.tasks)[taskId := FailedTask(agent.id, taskId, "lyrics:update:" + songId, failure, now)] &&
                       reply == agent.OutgoingMessage(message.fromAgentId, "lyrics:update:failed", failure, replyId, now))
      ensures corrected && old(AllConsistent()) ==> AllConsistent()
    {
      var url: Option<string> := None;
      if hasFile && upload.Some? {
        url := upload;
      }
      if (hasFile && upload.None?) || songId !in songs {
        agent.FailTask(taskId, "lyrics:update:" + songId, failure, now);
        reply := agent.OutgoingMessage(message.fromAgentId, "lyrics:update:failed", failure, replyId, now);
        broadcast := None;
        return;
      }
      var stored := songs[songId];
      var u := BuildUpdateRecord(lyricsText, url, stored, corrected);
      if corrected && old(AllConsistent()) {
        UpdateKeepsConsistent(stored, lyricsText, url, u);
      }
      songs := songs[songId := Apply(stored, u)];
      agent.CompleteTask(taskId, "lyrics:update:" + songId, Some(rendered(songs[songId])), now);
      reply := agent.OutgoingMessage(message.fromAgentId, "lyrics:update:completed", rendered(songs[songId]), replyId, now);
      broadcast := Some(SongUpdated(rendered(songs[songId]), broadcastId, now));
    }

    /**
     * handleGetLyrics: the stored columns for a song in the table, a
     * failed task otherwise; no row changes.
     */
    method HandleGetLyrics(message: AgentMessage, songId: string, failure: string, rendered: LyricsRow -> string,
                           taskId: string, replyId: string, now: int)
      returns (reply: AgentMessage)
      modifies agent
      ensures songId in songs ==>
                agent.tasks == old(agent.tasks)[taskId := CompletedTask(agent.id, taskId, "lyrics:get:" + songId, Some(rendered(songs[songId])), now)] &&
                reply == agent.OutgoingMessage(message.fromAgentId, "lyrics:get:completed", rendered(songs[songId]), replyId, now)
      ensures songId !in songs ==>
                agent.tasks == old(agent.tasks)[taskId := FailedTask(agent.id, taskId, "lyrics:get:" + songId, failure, now)] &&
                reply == agent.OutgoingMessage(message.fromAgentId, "lyrics:get:failed", failure, replyId, now)
    {
      if songId !in songs {
        agent.FailTask(taskId, "lyrics:get:" + songId, failure, now);
        reply := agent.OutgoingMessage(message.fromAgentId, "lyrics:get:failed", failure, replyId, now);
      } else {
        agent.CompleteTask(taskId, "lyrics:get:" + songId, Some(rendered(songs[songId])), now);
        reply := agent.OutgoingMessage(message.fromAgentId, "lyrics:get:completed", rendered(songs[songId]), replyId, now);
      }
    }

    /**
     * getLyrics: the stored columns and a completed task for a song in the
     * table; an error (None) and a failed task otherwise.
     */
    method GetLyrics(songId: string, failure: string, rendered: LyricsRow -> string, taskId: string, now: int)
      returns (r: Option<LyricsRow>)
      modifies agent
      ensures r.Some? <==> songId in songs
      ensures r.Some? ==> r.value == songs[songId]
      ensures r.Some? ==>
                agent.tasks == old(agent.tasks)[taskId := CompletedTask(agent.id, taskId, "public:lyrics:get:" + songId, Some(rendered(r.value)), now)]
      ensures r.None? ==> agent.tasks == old(agent.tasks)[taskId := FailedTask(agent.id, taskId, "public:lyrics:get:" + songId, failure, now)]
    {
      if songId !in songs {
        agent.FailTask(taskId, "public:lyrics:get:" + songId, failure, now);
        return None;
      }
      r := Some(songs[songId]);
      agent.CompleteTask(taskId, "public:lyrics:get:" + songId, Some(rendered(r.value)), now);
    }
  }
}
