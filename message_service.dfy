/**
 * Message persistence over the store. Creating a message checks the
 * session, turns an attached recording into text and a saved file, stores
 * the message and, for a user message, stores the bot's reply after it:
 * the spoken reply when speech synthesis succeeds, a fixed apology
 * without audio when it fails.
 *
 * The transcriber, the chat model, the speech endpoint, the file writes,
 * the clock readings and the random name suffixes are inputs.
 */
module MessageService {
  import opened Common
  import opened ApiRecords
  import opened Store
  import AiService
  import AudioService

  /** The uploaded recording as the upload middleware hands it over. */
  datatype AudioFile = AudioFile(buffer: Option<seq<byte>>, originalname: string, mimetype: string)

  /** Everything one `createMessage` call learns from outside the store. */
  datatype Outside = Outside(
    transcribe: AudioService.Upload -> Result<string, string>,
    saveStamp: nat,
    saveSuffix: string,
    saveError: Option<string>,
    retrieval: Result<seq<string>, string>,
    chat: AiService.ChatRequest -> Result<AiService.Completion, string>,
    synth: string -> Result<seq<byte>, string>,
    speechStamp: nat,
    speechSuffix: string,
    speechWriteError: Option<string>,
    now: int)

  /** What `createMessage` resolves to: both messages of a user turn, or the one message. */
  datatype Created =
    | UserAndBot(userMessage: MessageRow, botMessage: MessageRow)
    | MessageOnly(message: MessageRow)

  const AudioErrorPrefix: string := "Error processing audio: "
  const SaveErrorPrefix: string := "Failed to save audio file: "
  const FallbackReply: string :=
    "I'm sorry, I'm having trouble processing your request right now. Please try again."
  const AudioUrlPrefix: string := "/storage/audio/"

  // ---------------------------------------------------------------------
  // Saved recordings (`saveAudioFile`)
  // ---------------------------------------------------------------------

  /** No dot in `s`. */
  predicate DotFree(s: string)
  {
    forall k :: 0 <= k < |s| ==> s[k] != '.'
  }

  /**
   * `s.split(".").pop()`: the text after the last dot, or all of `s` when
   * it has none.
   */
  function AfterLastDot(s: string): (r: string)
    ensures DotFree(r)
    ensures |r| <= |s| && r == s[|s| - |r|..]
    ensures |r| < |s| ==> s[|s| - |r| - 1] == '.'
    ensures |r| == |s| ==> DotFree(s)
  {
    if s == [] then []
    else if s[|s| - 1] == '.' then []
    else
      var r := AfterLastDot(s[..|s| - 1]) + [s[|s| - 1]];
      assert s[..|s| - 1] + [s[|s| - 1]] == s;
      r
  }

  /** The name a recording is saved under: `session_<id>_<stamp>_<suffix>.<extension>`. */
  function AudioFileName(sessionId: nat, stamp: nat, suffix: string, originalname: string): string
  {
    "session_" + NatToString(sessionId) + "_" + NatToString(stamp) + "_" + suffix + "." + AfterLastDot(originalname)
  }

  /** A name ending in a dot and a dot-free part has that part as its extension. */
  lemma {:induction false} AfterLastDotOfJoin(p: string, e: string)
    requires DotFree(e)
    ensures AfterLastDot(p + "." + e) == e
    decreases |e|
  {
    var s := p + "." + e;
    if e == [] {
      assert s[|s| - 1] == '.';
    } else {
      var e' := e[..|e| - 1];
      assert s[..|s| - 1] == p + "." + e';
      AfterLastDotOfJoin(p, e');
      assert e' + [e[|e| - 1]] == e;
    }
  }

  /**
   * The saved file keeps the uploaded file's extension, whatever the
   * session, clock reading and suffix.
   */
  lemma AudioFileNameKeepsExtension(sessionId: nat, stamp: nat, suffix: string, originalname: string)
    ensures AfterLastDot(AudioFileName(sessionId, stamp, suffix, originalname)) == AfterLastDot(originalname)
  {
    var p := "session_" + NatToString(sessionId) + "_" + NatToString(stamp) + "_" + suffix;
    assert AudioFileName(sessionId, stamp, suffix, originalname) == p + "." + AfterLastDot(originalname);
    AfterLastDotOfJoin(p, AfterLastDot(originalname));
  }

  /**
   * `saveAudioFile(audioFile, sessionId)`: the URL of the saved file, or
   * the write failure with the "Failed to save audio file: " prefix.
   */
  function SaveAudioFile(file: AudioFile, sessionId: nat, stamp: nat, suffix: string,
                         writeError: Option<string>): (r: Result<string, string>)
    ensures r.Err? <==> writeError.Some?
    ensures r.Err? ==> r.error == SaveErrorPrefix + writeError.value
    ensures r.Ok? ==> var url := r.value;
              && |url| > |AudioUrlPrefix|
              && url[..|AudioUrlPrefix|] == AudioUrlPrefix
              && url[|AudioUrlPrefix|..] == AudioFileName(sessionId, stamp, suffix, file.originalname)
  {
    if writeError.Some? then Err(SaveErrorPrefix + writeError.value)
    else Ok(AudioUrlPrefix + AudioFileName(sessionId, stamp, suffix, file.originalname))
  }

  // ---------------------------------------------------------------------
  // The stored rows of `createMessage`
  // ---------------------------------------------------------------------

  /**
   * The audio step: the transcription becomes the text, then the file is
   * saved; a failure of either is the message of the 500 error.
   */
  function AudioStep(file: AudioFile, sessionId: nat, io: Outside): (r: Result<(string, string), string>)
    ensures var heard := AudioService.SpeechToText(
                           AudioService.FileInput(file.buffer, file.originalname, file.mimetype), io.transcribe);
            && (heard.Err? ==> r == Err(heard.error))
            && (heard.Ok? ==>
                  match SaveAudioFile(file, sessionId, io.saveStamp, io.saveSuffix, io.saveError)
                  case Err(e) => r == Err(e)
                  case Ok(url) => r == Ok((heard.value, url)))
  {
    var heard := AudioService.SpeechToText(
                   AudioService.FileInput(file.buffer, file.originalname, file.mimetype), io.transcribe);
    if heard.Err? then Err(heard.error)
    else
      match SaveAudioFile(file, sessionId, io.saveStamp, io.saveSuffix, io.saveError)
      case Err(e) => Err(e)
      case Ok(url) => Ok((heard.value, url))
  }

  /**
   * The message `createMessage` stores first, or the error it throws
   * before storing anything.
   */
  function MessagePlan(sessions: seq<SessionRow>, sessionId: nat, role: MessageRole, text: string,
                       audio: Option<AudioFile>, io: Outside): (r: Result<MessageRow, ApiError>)
    ensures r.Err? <==> || sessionId >= |sessions|
                        || sessions[sessionId].endedAt.Some?
                        || (audio.Some? && AudioStep(audio.value, sessionId, io).Err?)
    ensures sessionId >= |sessions| ==> r == Err(Fail(404, "Session not found"))
    ensures sessionId < |sessions| && sessions[sessionId].endedAt.Some? ==>
              r == Err(Fail(400, "Session is already ended"))
    ensures sessionId < |sessions| && sessions[sessionId].endedAt.None? && audio.Some? &&
            AudioStep(audio.value, sessionId, io).Err? ==>
              r == Err(Fail(500, AudioErrorPrefix + AudioStep(audio.value, sessionId, io).error))
    ensures r.Ok? ==> r.value.sessionId == sessionId && r.value.role == role
    ensures r.Ok? && audio.None? ==> r.value.text == text && r.value.audioUrl.None?
    ensures r.Ok? && audio.Some? ==>
              && AudioStep(audio.value, sessionId, io).Ok?
              && r.value.audioUrl == Some(AudioStep(audio.value, sessionId, io).value.1)
              && r.value.text == AudioStep(audio.value, sessionId, io).value.0
  {
    if sessionId >= |sessions| then Err(Fail(404, "Session not found"))
    else if sessions[sessionId].endedAt.Some? then Err(Fail(400, "Session is already ended"))
    else if audio.None? then Ok(MessageRow(sessionId, role, text, None))
    else
      match AudioStep(audio.value, sessionId, io)
      case Err(e) => Err(Fail(500, AudioErrorPrefix + e))
      case Ok((heard, url)) => Ok(MessageRow(sessionId, role, heard, Some(url)))
  }

  /** The bot message stored after a user message: the reply with its audio, or the apology without. */
  function BotRow(sessionId: nat, reply: string, speech: Result<AudioService.Speech, string>): (m: MessageRow)
    ensures m.sessionId == sessionId && m.role == BotRole
    ensures m.audioUrl.Some? <==> speech.Ok?
    ensures speech.Ok? ==> m.text == reply && m.audioUrl == Some(speech.value.audioFilePath)
    ensures speech.Err? ==> m.text == FallbackReply
  {
    if speech.Ok? then MessageRow(sessionId, BotRole, reply, Some(speech.value.audioFilePath))
    else MessageRow(sessionId, BotRole, FallbackReply, None)
  }

  /** The documents of an agent as the reply flow loads them, each with its id. */
  function DocumentViews(documents: seq<DocumentRow>, agentId: nat): (r: seq<AiService.DocumentView>)
    ensures |r| <= |documents|
    ensures forall k :: 0 <= k < |r| ==>
              r[k].id < |documents| && documents[r[k].id].agentId == agentId
              && r[k].contentText == Some(documents[r[k].id].contentText)
  {
    if documents == [] then []
    else
      var last := documents[|documents| - 1];
      DocumentViews(documents[..|documents| - 1], agentId)
        + (if last.agentId == agentId then [AiService.DocumentView(|documents| - 1, Some(last.contentText))] else [])
  }

  /** What the reply flow's session query returns: the session's agent with its prompt and documents. */
  function SessionViewOf(sessions: seq<SessionRow>, agents: seq<AgentRow>, documents: seq<DocumentRow>,
                         sessionId: nat): (v: Option<AiService.SessionView>)
    ensures v.Some? <==> sessionId < |sessions|
    ensures v.Some? ==> (v.value.agent.Some? <==> sessions[sessionId].agentId < |agents|)
    ensures v.Some? && v.value.agent.Some? ==>
              v.value.agent.value.prompt == Some(agents[sessions[sessionId].agentId].prompt)
  {
    if sessionId >= |sessions| then None
    else
      var a := sessions[sessionId].agentId;
      Some(AiService.SessionView(
        if a < |agents| then Some(AiService.AgentView(Some(agents[a].prompt), DocumentViews(documents, a)))
        else None))
  }

  /** Rows that all belong to one session. */
  predicate AllInSession(rows: seq<MessageRow>, sessionId: nat)
  {
    forall k :: 0 <= k < |rows| ==> rows[k].sessionId == sessionId
  }

  /**
   * Rows appended for one session extend that session's message list by
   * exactly those rows, in order, and leave every other session's list
   * as it was.
   */
  lemma {:induction false} SessionRowsAppended(messages: seq<MessageRow>, rows: seq<MessageRow>, sessionId: nat, other: nat)
    requires AllInSession(rows, sessionId) && other != sessionId
    ensures MessagesOf(messages + rows, sessionId) == MessagesOf(messages, sessionId) + rows
    ensures MessagesOf(messages + rows, other) == MessagesOf(messages, other)
    decreases |rows|
  {
    if rows == [] {
      assert messages + rows == messages;
    } else {
      var init := rows[..|rows| - 1];
      var last := rows[|rows| - 1];
      assert init + [last] == rows;
      assert AllInSession(init, sessionId) by {
        forall k | 0 <= k < |init| ensures init[k].sessionId == sessionId {
          assert init[k] == rows[k];
        }
      }
      var mi := messages + init;
      Regroup(messages, init, [last], mi, rows);
      SessionRowsAppended(messages, init, sessionId, other);
      MessagesOfAppend(mi, last, sessionId);
      MessagesOfAppend(mi, last, other);
      Regroup(MessagesOf(messages, sessionId), init, [last], MessagesOf(mi, sessionId), rows);
    }
  }

  // ---------------------------------------------------------------------
  // The service operations
  // ---------------------------------------------------------------------

  /**
   * The checks and the audio step of `createMessage`, up to the message
   * it stores: the session must exist and be open; an attached recording
   * is transcribed and saved.
   */
  method PrepareMessage(sessions: seq<SessionRow>, sessionId: nat, role: MessageRole, text: string,
                        audio: Option<AudioFile>, io: Outside)
    returns (r: Result<MessageRow, ApiError>)
    ensures r == MessagePlan(sessions, sessionId, role, text, audio, io)
  {
    if sessionId >= |sessions| {
      return Err(Fail(404, "Session not found"));
    }
    if sessions[sessionId].endedAt.Some? {
      return Err(Fail(400, "Session is already ended"));
    }
    var processed := text;
    var audioUrl: Option<string> := None;
    if audio.Some? {
      var step := AudioStep(audio.value, sessionId, io);
      if step.Err? {
        return Err(Fail(500, AudioErrorPrefix + step.error));
      }
      processed := step.value.0;
      audioUrl := Some(step.value.1);
    }
    r := Ok(MessageRow(sessionId, role, processed, audioUrl));
  }

  /**
   * The bot half of a user turn: the reply of `generateBotResponse`,
   * spoken by `textToSpeech`, stored after the user's message; a failed
   * synthesis stores the apology without audio instead.
   */
  method StoreReply(db: Database, replies: AiService.ReplyService, message: MessageRow, io: Outside)
    returns (bot: MessageRow)
    requires db.Valid() && replies.Valid()
    modifies db, replies, replies.ledger
    ensures db.Valid() && replies.Valid()
    ensures db.users == old(db.users) && db.agents == old(db.agents) && db.documents == old(db.documents)
    ensures db.embeddings == old(db.embeddings) && db.sessions == old(db.sessions)
    ensures var view := SessionViewOf(old(db.sessions), old(db.agents), old(db.documents), message.sessionId);
            var turn := AiService.BotTurn(old(replies.Cache()), message.text, view, io.chat);
            var speech := AudioService.TextToSpeech(turn.reply, io.synth, io.speechStamp, io.speechSuffix,
                                                    io.speechWriteError);
            && bot == BotRow(message.sessionId, turn.reply, speech)
            && db.messages == old(db.messages) + [bot]
            && replies.Cache() == turn.cache
            && replies.View() == AiService.AfterCalls(old(replies.View()), turn.calls, io.now)
  {
    var view := SessionViewOf(db.sessions, db.agents, db.documents, message.sessionId);
    var reply := replies.GenerateBotResponse(message.text, view, io.retrieval, io.chat, io.now);
    var speech := AudioService.TextToSpeech(reply, io.synth, io.speechStamp, io.speechSuffix, io.speechWriteError);
    if speech.Ok? {
      bot := MessageRow(message.sessionId, BotRole, reply, Some(speech.value.audioFilePath));
    } else {
      bot := MessageRow(message.sessionId, BotRole, FallbackReply, None);
    }
    db.messages := db.messages + [bot];
  }

  /**
   * `createMessage(messageData, audioFile)`: nothing is stored when a
   * check or the audio step fails; a user message is followed by the
   * bot's message. Only the message table, the reply cache and the usage
   * ledger change.
   */
  method CreateMessage(db: Database, replies: AiService.ReplyService, sessionId: nat, role: MessageRole,
                       text: string, audio: Option<AudioFile>, io: Outside)
    returns (r: Result<Created, ApiError>)
    requires db.Valid() && replies.Valid()
    modifies db, replies, replies.ledger
    ensures db.Valid() && replies.Valid()
    ensures db.users == old(db.users) && db.agents == old(db.agents) && db.documents == old(db.documents)
    ensures db.embeddings == old(db.embeddings) && db.sessions == old(db.sessions)
    ensures var plan := MessagePlan(old(db.sessions), sessionId, role, text, audio, io);
            plan.Err? ==>
              && r == Err(plan.error)
              && db.messages == old(db.messages)
              && replies.Cache() == old(replies.Cache()) && replies.View() == old(replies.View())
    ensures var plan := MessagePlan(old(db.sessions), sessionId, role, text, audio, io);
            plan.Ok? && role == BotRole ==>
              && r == Ok(MessageOnly(plan.value))
              && db.messages == old(db.messages) + [plan.value]
              && replies.Cache() == old(replies.Cache()) && replies.View() == old(replies.View())
    ensures var plan := MessagePlan(old(db.sessions), sessionId, role, text, audio, io);
            plan.Ok? && role == UserRole ==>
              var view := SessionViewOf(old(db.sessions), old(db.agents), old(db.documents), sessionId);
              var turn := AiService.BotTurn(old(replies.Cache()), plan.value.text, view, io.chat);
              var speech := AudioService.TextToSpeech(turn.reply, io.synth, io.speechStamp, io.speechSuffix,
                                                      io.speechWriteError);
              && r == Ok(UserAndBot(plan.value, BotRow(sessionId, turn.reply, speech)))
              && db.messages == old(db.messages) + [plan.value, BotRow(sessionId, turn.reply, speech)]
              && replies.Cache() == turn.cache
              && replies.View() == AiService.AfterCalls(old(replies.View()), turn.calls, io.now)
  {
    var prepared := PrepareMessage(db.sessions, sessionId, role, text, audio, io);
    if prepared.Err? {
      return Err(prepared.error);
    }
    var message := prepared.value;
    ghost var before := db.messages;
    db.messages := db.messages + [message];
    if role == UserRole {
      var bot := StoreReply(db, replies, message, io);
      assert db.messages == before + [message, bot];
      return Ok(UserAndBot(message, bot));
    }
    r := Ok(MessageOnly(message));
  }

  /**
   * `getSessionMessages(sessionId)`: 404 naming the id when the session is
   * absent, otherwise its messages in the order they were stored.
   */
  function GetSessionMessages(db: Database, sessionId: nat): (r: Result<seq<MessageRow>, ApiError>)
    reads db
    ensures r.Err? <==> sessionId >= |db.sessions|
    ensures r.Err? ==> r.error == Fail(404, "Session not found with ID: " + NatToString(sessionId))
    ensures r.Ok? ==> r.value == MessagesOf(db.messages, sessionId)
    ensures r.Ok? ==> forall m :: m in r.value <==> m in db.messages && m.sessionId == sessionId
  {
    if sessionId >= |db.sessions| then Err(Fail(404, "Session not found with ID: " + NatToString(sessionId)))
    else Ok(MessagesOf(db.messages, sessionId))
  }

  /** `getMessageById(messageId)`: the message with its session, or 404. */
  function GetMessageById(db: Database, messageId: nat): (r: Result<(MessageRow, Option<SessionRow>), ApiError>)
    reads db
    ensures r.Err? <==> messageId >= |db.messages|
    ensures r.Err? ==> r.error == Fail(404, "Message not found")
    ensures r.Ok? ==> r.value.0 == db.messages[messageId]
    ensures r.Ok? ==> (r.value.1.Some? <==> db.messages[messageId].sessionId < |db.sessions|)
  {
    if messageId >= |db.messages| then Err(Fail(404, "Message not found"))
    else
      var m := db.messages[messageId];
      Ok((m, if m.sessionId < |db.sessions| then Some(db.sessions[m.sessionId]) else None))
  }

  /**
   * A user turn adds exactly the user message and then the bot message to
   * its session's list, and nothing to any other session's list.
   */
  lemma UserTurnListed(messages: seq<MessageRow>, user: MessageRow, bot: MessageRow, sessionId: nat, other: nat)
    requires user.sessionId == sessionId && bot.sessionId == sessionId && other != sessionId
    ensures MessagesOf(messages + [user, bot], sessionId) == MessagesOf(messages, sessionId) + [user, bot]
    ensures MessagesOf(messages + [user, bot], other) == MessagesOf(messages, other)
  {
    SessionRowsAppended(messages, [user, bot], sessionId, other);
  }
}
