/**
 * The voice connection manager: one record per connected socket, driven
 * through a small state machine by the `start_session`, `audio_chunk`,
 * `stop_recording` and `ping` messages; a stop transcribes the buffered
 * audio, answers with a spoken reply and stores the exchange. An idle
 * sweep drops clients silent for more than five minutes, and response
 * times are summarised.
 *
 * Sockets are modelled by the frames sent on them (one stream per client
 * id) and by a reading of the socket's open state passed to the handlers;
 * the transcriber, the chat model, the speech endpoint, file writes,
 * clocks and random ids are inputs.
 */
module VoiceService {
  import opened Common
  import opened Store
  import opened UsageLedger
  import Text
  import Wav
  import AiService
  import AudioService
  import MessageService

  /** A client record; the socket itself is left out. */
  datatype ClientRecord = ClientRecord(
    sessionId: Option<nat>,
    audioChunks: seq<seq<byte>>,
    textBuffer: string,
    isRecording: bool,
    lastActivity: int)

  /** The frames sent to a client, by their `type`. */
  datatype Event =
    | ConnectionEstablished(clientId: string)
    | ErrorEvent(message: string)
    | Pong(timestamp: int)
    | SessionStarted(sessionId: nat)
    | AudioReceived(chunkIndex: nat)
    | ProcessingAudio
    | NoSpeechDetected
    | TranscriptionComplete(text: string, fullText: string)
    | GeneratingResponse
    | BotResponse(text: string, audioData: seq<byte>, audioUrl: string, messageId: nat)
    | Closed

  /** An incoming frame after `JSON.parse`, by its `type`; `audioData` is the decoded buffer. */
  datatype Message =
    | StartSessionMessage(sessionId: Option<nat>)
    | AudioChunkMessage(audioData: Option<seq<byte>>)
    | StopRecordingMessage
    | PingMessage
    | OtherMessage(kind: string)

  const IdleTimeout: int := 300000
  const NoSessionMessage: string := "No active session found. Please start a new session."
  const StartFailurePrefix: string := "Failed to start session: "

  /** A record that records or holds audio has a session. */
  predicate SessionHeld(c: ClientRecord)
  {
    (c.isRecording || c.audioChunks != []) ==> c.sessionId.Some?
  }

  predicate RecordsValid(clients: map<string, ClientRecord>)
  {
    forall id :: id in clients ==> SessionHeld(clients[id])
  }

  /** Replacing one record by one that keeps the session rule keeps it for all. */
  lemma RecordsValidUpdate(clients: map<string, ClientRecord>, clientId: string, c: ClientRecord)
    requires RecordsValid(clients) && SessionHeld(c)
    ensures RecordsValid(clients[clientId := c])
  {
  }

  /** A second update of the same key overrides the first. */
  lemma UpdateTwice<K, V>(m: map<K, V>, k: K, a: V, b: V)
    ensures m[k := a][k := b] == m[k := b]
  {
  }

  /** The frames a client has been sent so far. */
  function Stream(sent: map<string, seq<Event>>, clientId: string): seq<Event>
  {
    if clientId in sent then sent[clientId] else []
  }

  /** The frame log after `events` were sent to one client. */
  function Appended(sent: map<string, seq<Event>>, clientId: string, events: seq<Event>): map<string, seq<Event>>
  {
    if events == [] then sent else sent[clientId := Stream(sent, clientId) + events]
  }

  /** Sending to one client extends its stream by exactly those frames and leaves every other stream alone. */
  lemma AppendedStreams(sent: map<string, seq<Event>>, clientId: string, events: seq<Event>)
    ensures forall k :: Stream(Appended(sent, clientId, events), k) ==
                          if k == clientId then Stream(sent, k) + events else Stream(sent, k)
  {
    if events == [] {
      assert Stream(sent, clientId) + events == Stream(sent, clientId);
    }
  }

  /** Two sends to the same client are one send of both frame lists. */
  lemma AppendedTwice(sent: map<string, seq<Event>>, clientId: string, a: seq<Event>, b: seq<Event>)
    ensures Appended(Appended(sent, clientId, a), clientId, b) == Appended(sent, clientId, a + b)
  {
    if a == [] {
      assert a + b == b;
    } else if b == [] {
      assert a + b == a;
    } else {
      Regroup(Stream(sent, clientId), a, b, Stream(sent, clientId) + a, a + b);
    }
  }

  // ---------------------------------------------------------------------
  // Performance statistics (`trackPerformance`)
  // ---------------------------------------------------------------------

  /** `performanceStats`; a missing fastest time is the initial `Infinity`. */
  datatype PerformanceStats = PerformanceStats(
    totalRequests: nat,
    responseTimes: seq<int>,
    fastestResponse: Option<int>,
    slowestResponse: int,
    averageResponseTime: real)

  const InitialStats: PerformanceStats := PerformanceStats(0, [], None, 0, 0.0)

  function Sum(ts: seq<int>): int
  {
    if ts == [] then 0 else Sum(ts[..|ts| - 1]) + ts[|ts| - 1]
  }

  /**
   * The count is the number of recorded times, the fastest and slowest
   * bound every recorded time (the slowest starts at 0), and the average
   * is the sum over the count.
   */
  ghost predicate StatsValid(s: PerformanceStats)
  {
    && s.totalRequests == |s.responseTimes|
    && (s.fastestResponse.None? <==> s.responseTimes == [])
    && (forall i :: 0 <= i < |s.responseTimes| ==>
          s.fastestResponse.Some? && s.fastestResponse.value <= s.responseTimes[i] <= s.slowestResponse)
    && (s.fastestResponse.Some? ==> s.fastestResponse.value in s.responseTimes)
    && s.slowestResponse >= 0
    && (s.slowestResponse == 0 || s.slowestResponse in s.responseTimes)
    && (s.responseTimes != [] ==> s.averageResponseTime == Sum(s.responseTimes) as real / |s.responseTimes| as real)
  }

  /** The statistics after one more response time. */
  function Tracked(s: PerformanceStats, t: int): PerformanceStats
  {
    var times := s.responseTimes + [t];
    PerformanceStats(
      s.totalRequests + 1,
      times,
      if s.fastestResponse.None? || t < s.fastestResponse.value then Some(t) else s.fastestResponse,
      if t > s.slowestResponse then t else s.slowestResponse,
      Sum(times) as real / |times| as real)
  }

  lemma InitialStatsValid()
    ensures StatsValid(InitialStats)
  {
  }

  /** Recording a time keeps the statistics consistent and records exactly that time. */
  lemma TrackedValid(s: PerformanceStats, t: int)
    requires StatsValid(s)
    ensures StatsValid(Tracked(s, t))
    ensures Tracked(s, t).responseTimes == s.responseTimes + [t]
    ensures Tracked(s, t).fastestResponse.value <= t <= Tracked(s, t).slowestResponse
  {
    var s' := Tracked(s, t);
    var times := s.responseTimes + [t];
    assert times[..|times| - 1] == s.responseTimes;
    forall i | 0 <= i < |times|
      ensures s'.fastestResponse.Some? && s'.fastestResponse.value <= times[i] <= s'.slowestResponse
    {
      if i < |s.responseTimes| {
        assert times[i] == s.responseTimes[i];
      }
    }
    if s.fastestResponse.Some? && !(t < s.fastestResponse.value) {
      assert s.fastestResponse.value in times;
    }
    if !(t > s.slowestResponse) && s.slowestResponse != 0 {
      assert s.slowestResponse in times;
    }
  }

  /** The sum of the recorded times, as the `reduce` computes it. */
  method SumTimes(ts: seq<int>) returns (total: int)
    ensures total == Sum(ts)
  {
    total := 0;
    for i := 0 to |ts|
      invariant total == Sum(ts[..i])
    {
      assert ts[..i + 1][..i] == ts[..i];
      total := total + ts[i];
    }
    assert ts[..|ts|] == ts;
  }

  // ---------------------------------------------------------------------
  // Speech for the reply (`generateOptimizedTTS` and the inline fallback)
  // ---------------------------------------------------------------------

  /** The inputs of one attempt to speak a reply: the dynamic request, then the single request. */
  datatype SpeechIo = SpeechIo(
    synth: string -> Result<seq<byte>, string>,
    startTime: int,
    endTime: int,
    dynamicStamp: nat,
    dynamicSuffix: string,
    dynamicSaveError: Option<string>,
    plainStamp: nat,
    plainSuffix: string,
    plainWriteError: Option<string>)

  /** A spoken reply; `dynamicTime` is the dynamic path's processing time, absent after the fallback. */
  datatype Voice = Voice(audio: seq<byte>, url: string, dynamicTime: Option<int>)

  /** Parallel speech first; when it fails, one request for the whole text. */
  function Speak(text: string, io: SpeechIo): (v: Option<Voice>)
    ensures v.None? <==>
              && (!AudioService.AllSynthesized(AudioService.DynamicChunks(text), io.synth) || io.dynamicSaveError.Some?)
              && (io.synth(text).Err? || io.plainWriteError.Some?)
    ensures v.Some? && v.value.dynamicTime.Some? ==>
              v.value.url == AudioService.DynamicSpeechPath(io.dynamicStamp, io.dynamicSuffix)
  {
    var chunks := AudioService.DynamicChunks(text);
    if AudioService.AllSynthesized(chunks, io.synth) && io.dynamicSaveError.None? then
      Some(Voice(Flatten(AudioService.ChunkAudio(chunks, io.synth)),
                 AudioService.DynamicSpeechPath(io.dynamicStamp, io.dynamicSuffix),
                 Some(io.endTime - io.startTime)))
    else
      match AudioService.TextToSpeech(text, io.synth, io.plainStamp, io.plainSuffix, io.plainWriteError)
      case Ok(s) => Some(Voice(s.audioBuffer, s.audioFilePath, None))
      case Err(_) => None
  }

  /** The chunk indexes settling in order. */
  function InOrder(n: nat): (arrival: seq<nat>)
    ensures AudioService.IsArrivalOrder(arrival, n)
  {
    var arrival := seq(n, i => i);
    assert forall i | 0 <= i < n :: i in arrival by {
      forall i | 0 <= i < n
        ensures i in arrival
      {
        assert arrival[i] == i;
      }
    }
    arrival
  }

  /**
   * `generateOptimizedTTS(text)`: `textToSpeechDynamic`, and on failure
   * `textToSpeech`; a failure of both is passed on (`None`). The
   * settling order of the parallel requests does not change the
   * dynamic result, so they are taken in order.
   */
  method SpeakReply(text: string, io: SpeechIo) returns (v: Option<Voice>)
    ensures v == Speak(text, io)
  {
    var n := |AudioService.DynamicChunks(text)|;
    var dynamic := AudioService.TextToSpeechDynamic(
      text, io.synth, InOrder(n), io.dynamicSaveError, io.dynamicStamp, io.dynamicSuffix, io.startTime, io.endTime);
    if dynamic.Ok? {
      return Some(Voice(dynamic.value.audioBuffer, dynamic.value.audioFilePath, Some(dynamic.value.processingTime)));
    }
    var plain := AudioService.TextToSpeech(text, io.synth, io.plainStamp, io.plainSuffix, io.plainWriteError);
    if plain.Ok? {
      return Some(Voice(plain.value.audioBuffer, plain.value.audioFilePath, None));
    }
    v := None;
  }

  /** `prepareTTSOptimization(text)`: the `split(/\s+/)` count and one chunk per started ten words. */
  function PrepareTTSOptimization(text: string): (r: (nat, nat))
    ensures r.0 == |Text.SplitWs(text)|
    ensures r.1 >= 1 && r.1 * 10 >= r.0
    ensures r.1 == 1 || (r.1 - 1) * 10 < r.0
  {
    var wordCount := |Text.SplitWs(text)|;
    (wordCount, Max(1, (wordCount + 9) / 10))
  }

  // ---------------------------------------------------------------------
  // One voice turn, as values
  // ---------------------------------------------------------------------

  /** The inputs of a stop: transcription, reply, speech (first and retried) and clock readings. */
  datatype TurnIo = TurnIo(
    transcribe: AudioService.Upload -> Result<string, string>,
    retrieval: Result<seq<string>, string>,
    chat: AiService.ChatRequest -> Result<AiService.Completion, string>,
    speech: SpeechIo,
    retrySpeech: SpeechIo,
    now: int,
    responseTime: int)

  /** The state a reply reads: the tables, the number of stored messages, the cache and the ledger. */
  datatype Context = Context(
    sessions: seq<SessionRow>,
    agents: seq<AgentRow>,
    documents: seq<DocumentRow>,
    messageCount: nat,
    cache: AiService.CacheState,
    ledger: AiService.LedgerView)

  /** What a response flow does: rows stored, frames sent, and the cache and ledger afterwards. */
  datatype Response = Response(
    rows: seq<MessageRow>,
    events: seq<Event>,
    cache: AiService.CacheState,
    ledger: AiService.LedgerView)

  function HeardRow(sessionId: nat, text: string): MessageRow
  {
    MessageRow(sessionId, UserRole, text, None)
  }

  function SpokenRow(sessionId: nat, reply: string, v: Voice): MessageRow
  {
    MessageRow(sessionId, BotRole, reply, Some(v.url))
  }

  /** `logMessage`: an entry with the current totals when a session is tracked. */
  function Logged(v: AiService.LedgerView, messageId: nat, userText: string, reply: string,
                  d: AudioDuration, now: int): AiService.LedgerView
  {
    if v.current.None? then v
    else
      var a := v.current.value;
      AiService.LedgerView(v.current, v.logs + [MessageLog(messageId, a.sessionId, now, userText, reply, d,
                                                          Totals(a.totalCost, a.totalInputTokens, a.totalOutputTokens))])
  }

  /** The duration logged with a spoken reply: the dynamic processing time, else the marker or 0. */
  function DurationOf(v: Voice, marker: bool): AudioDuration
  {
    if v.dynamicTime.Some? then Millis(v.dynamicTime.value) else if marker then FallbackMarker else Millis(0)
  }

  /** The end of a response that could be spoken: the bot row, the frame, and the ledger entry. */
  datatype Tail = Tail(rows: seq<MessageRow>, events: seq<Event>, ledger: AiService.LedgerView)

  function Spoken(sessionId: nat, text: string, reply: string, v: Voice, id: nat,
                  ledger: AiService.LedgerView, marker: bool, now: int, open: bool): Tail
  {
    Tail([SpokenRow(sessionId, reply, v)],
         if open then [BotResponse(reply, v.audio, v.url, id)] else [],
         Logged(ledger, id, text, reply, DurationOf(v, marker), now))
  }

  /** `generateUltraFastResponse` for the session's agent, as the voice flows call it. */
  function Reply(sessionId: nat, text: string, ctx: Context, io: TurnIo): AiService.Turn
  {
    AiService.UltraFastTurn(ctx.cache, text, MessageService.SessionViewOf(ctx.sessions, ctx.agents, ctx.documents, sessionId), io.chat)
  }

  /**
   * `generateAndSendResponse`: reply, store the user message, speak the
   * reply (dynamic, then single request, its duration logged as
   * "fallback"), store and send the bot message; when speaking fails the
   * fixed apology is sent as an error and no bot message is stored.
   */
  function PlainResponse(sessionId: nat, text: string, ctx: Context, io: TurnIo, open: bool): Response
  {
    var t := Reply(sessionId, text, ctx, io);
    var after := AiService.AfterCalls(ctx.ledger, t.calls, io.now);
    var v := Speak(t.reply, io.retrySpeech);
    if v.None? then
      Response([HeardRow(sessionId, text)], [GeneratingResponse, ErrorEvent(MessageService.FallbackReply)], t.cache, after)
    else
      var tl := Spoken(sessionId, text, t.reply, v.value, ctx.messageCount + 1, after, true, io.now, open);
      Response([HeardRow(sessionId, text)] + tl.rows, [GeneratingResponse] + tl.events, t.cache, tl.ledger)
  }

  /** The context after the first reply and the stored user message. */
  function Advanced(sessionId: nat, text: string, ctx: Context, io: TurnIo): Context
  {
    var t := Reply(sessionId, text, ctx, io);
    ctx.(messageCount := ctx.messageCount + 1, cache := t.cache, ledger := AiService.AfterCalls(ctx.ledger, t.calls, io.now))
  }

  /** A retried response: the first user row and frame, then the plain response's. */
  function Retried(r: Response, sessionId: nat, text: string): Response
  {
    Response([HeardRow(sessionId, text)] + r.rows, [GeneratingResponse] + r.events, r.cache, r.ledger)
  }

  /**
   * `generateAndSendResponseOptimized`: the same steps with the first
   * speech inputs (a missing processing time logged as 0); when speaking
   * fails, the stored user message stays and `generateAndSendResponse`
   * runs from the start.
   */
  function OptimizedResponse(sessionId: nat, text: string, ctx: Context, io: TurnIo, open: bool): Response
  {
    var t := Reply(sessionId, text, ctx, io);
    var after := AiService.AfterCalls(ctx.ledger, t.calls, io.now);
    var v := Speak(t.reply, io.speech);
    if v.None? then
      Retried(PlainResponse(sessionId, text, Advanced(sessionId, text, ctx, io), io, open), sessionId, text)
    else
      var tl := Spoken(sessionId, text, t.reply, v.value, ctx.messageCount + 1, after, false, io.now, open);
      Response([HeardRow(sessionId, text)] + tl.rows, [GeneratingResponse] + tl.events, t.cache, tl.ledger)
  }

  /** What a stop sends and does beyond the record: the frames, the stored rows, the cache, the ledger and the statistics. */
  datatype Turn = Turn(
    events: seq<Event>,
    rows: seq<MessageRow>,
    cache: AiService.CacheState,
    ledger: AiService.LedgerView,
    stats: PerformanceStats)

  /**
   * The record after a stop: a non-blank transcription is appended to the
   * text buffer with one space and empties the audio buffer; otherwise
   * the record is kept.
   */
  function TurnRecord(c: ClientRecord, transcribe: AudioService.Upload -> Result<string, string>): ClientRecord
  {
    if c.audioChunks == [] || c.sessionId.None? then c
    else
      match AudioService.StreamTranscript(c.audioChunks, transcribe)
      case Err(_) => c
      case Ok(text) => if Text.IsBlank(text) then c else c.(textBuffer := c.textBuffer + text + " ", audioChunks := [])
  }

  /**
   * `processAccumulatedAudio` on a record: nothing for an empty buffer;
   * an error without a session; otherwise transcribe, and on a non-blank
   * transcription extend the text buffer, respond, record the response
   * time and empty the audio buffer.
   */
  function AudioTurn(c: ClientRecord, ctx: Context, stats: PerformanceStats, io: TurnIo, open: bool): Turn
  {
    var quiet := Turn([], [], ctx.cache, ctx.ledger, stats);
    if c.audioChunks == [] then quiet
    else if c.sessionId.None? then quiet.(events := [ErrorEvent(NoSessionMessage)])
    else
      match AudioService.StreamTranscript(c.audioChunks, io.transcribe)
      case Err(e) => quiet.(events := [ProcessingAudio, ErrorEvent(MessageService.AudioErrorPrefix + e)])
      case Ok(text) =>
        if Text.IsBlank(text) then quiet.(events := [ProcessingAudio, NoSpeechDetected])
        else
          var buffer := c.textBuffer + text + " ";
          var r := OptimizedResponse(c.sessionId.value, text, ctx, io, open);
          Turn([ProcessingAudio, TranscriptionComplete(text, Text.Trim(buffer))] + r.events,
               r.rows, r.cache, r.ledger, Tracked(stats, io.responseTime))
  }

  // ---------------------------------------------------------------------
  // Properties of a turn
  // ---------------------------------------------------------------------

  /**
   * The stored rows of a response: the user message first; the bot
   * message right after it exactly when the first speech attempt worked;
   * otherwise the user message a second time, followed by the bot message
   * when the retry could be spoken, or else by nothing, with the apology
   * as the last frame.
   */
  predicate RowsShape(r: Response, sessionId: nat, text: string, firstSpoken: bool)
  {
    && r.events != [] && r.events[0] == GeneratingResponse
    && 2 <= |r.rows| <= 3
    && (forall k :: 0 <= k < |r.rows| - 1 ==> r.rows[k] == HeardRow(sessionId, text))
    && (r.rows[1].role == BotRole <==> firstSpoken)
    && (var last := r.rows[|r.rows| - 1];
        && (last.role == BotRole <==> r.events[|r.events| - 1] != ErrorEvent(MessageService.FallbackReply))
        && (last.role == BotRole ==> last.sessionId == sessionId && last.audioUrl.Some?))
  }

  /** The rows of a response whose first speech attempt worked. */
  lemma SpokenRows(sessionId: nat, text: string, ctx: Context, io: TurnIo, open: bool)
    requires Speak(Reply(sessionId, text, ctx, io).reply, io.speech).Some?
    ensures RowsShape(OptimizedResponse(sessionId, text, ctx, io, open), sessionId, text, true)
  {
  }

  /**
   * The rows of `generateAndSendResponse`: the user message, then the bot
   * message exactly when the reply could be spoken, in which case the
   * apology is not the last frame.
   */
  predicate PlainShape(r: Response, sessionId: nat, text: string)
  {
    && r.events != [] && r.events[0] == GeneratingResponse
    && 1 <= |r.rows| <= 2 && r.rows[0] == HeardRow(sessionId, text)
    && (var last := r.rows[|r.rows| - 1];
        && (last.role == BotRole <==> r.events[|r.events| - 1] != ErrorEvent(MessageService.FallbackReply))
        && (last.role == BotRole ==> last.sessionId == sessionId && last.audioUrl.Some?))
  }

  lemma PlainRows(sessionId: nat, text: string, ctx: Context, io: TurnIo, open: bool)
    ensures PlainShape(PlainResponse(sessionId, text, ctx, io, open), sessionId, text)
  {
    var r := PlainResponse(sessionId, text, ctx, io, open);
    if Speak(Reply(sessionId, text, ctx, io).reply, io.retrySpeech).Some? {
      assert r.events[|r.events| - 1] != ErrorEvent(MessageService.FallbackReply);
    }
  }

  /** The retry's rows after the first stored user message. */
  lemma RetryShape(r: Response, sessionId: nat, text: string)
    requires PlainShape(r, sessionId, text)
    ensures RowsShape(Retried(r, sessionId, text), sessionId, text, false)
  {
    var rows := Retried(r, sessionId, text).rows;
    assert rows[1] == r.rows[0] && rows[|rows| - 1] == r.rows[|r.rows| - 1];
  }

  /** The rows of a response that fell back to `generateAndSendResponse`. */
  lemma RetriedRows(sessionId: nat, text: string, ctx: Context, io: TurnIo, open: bool)
    requires Speak(Reply(sessionId, text, ctx, io).reply, io.speech).None?
    ensures RowsShape(OptimizedResponse(sessionId, text, ctx, io, open), sessionId, text, false)
  {
    var ctx' := Advanced(sessionId, text, ctx, io);
    PlainRows(sessionId, text, ctx', io, open);
    RetryShape(PlainResponse(sessionId, text, ctx', io, open), sessionId, text);
  }

  lemma ResponseRows(sessionId: nat, text: string, ctx: Context, io: TurnIo, open: bool)
    ensures RowsShape(OptimizedResponse(sessionId, text, ctx, io, open), sessionId, text,
                      Speak(Reply(sessionId, text, ctx, io).reply, io.speech).Some?)
  {
    if Speak(Reply(sessionId, text, ctx, io).reply, io.speech).Some? {
      SpokenRows(sessionId, text, ctx, io, open);
    } else {
      RetriedRows(sessionId, text, ctx, io, open);
    }
  }

  /**
   * A record that keeps the session rule never gets the no-session error:
   * with audio to process, every stop sends `processing_audio` first.
   */
  lemma TurnStartsProcessing(c: ClientRecord, ctx: Context, stats: PerformanceStats, io: TurnIo, open: bool)
    requires c.audioChunks != [] && SessionHeld(c)
    ensures var t := AudioTurn(c, ctx, stats, io, open);
            t.events != [] && t.events[0] == ProcessingAudio
  {
  }

  /**
   * A turn changes only the text and audio buffers of the record; an
   * empty buffer sends nothing and changes nothing; only a completed turn
   * (a non-blank transcription) empties the audio buffer, and only it
   * stores rows and records a response time.
   */
  lemma AudioTurnShape(c: ClientRecord, ctx: Context, stats: PerformanceStats, io: TurnIo, open: bool)
    ensures var t := AudioTurn(c, ctx, stats, io, open);
            var record := TurnRecord(c, io.transcribe);
            && record == c.(textBuffer := record.textBuffer, audioChunks := record.audioChunks)
            && (c.audioChunks == [] ==> t == Turn([], [], ctx.cache, ctx.ledger, stats) && record == c)
            && (var completed := c.audioChunks != [] && c.sessionId.Some?
                                 && AudioService.StreamTranscript(c.audioChunks, io.transcribe).Ok?
                                 && !Text.IsBlank(AudioService.StreamTranscript(c.audioChunks, io.transcribe).value);
                && (completed ==> record.audioChunks == [] && t.rows != [] && t.stats == Tracked(stats, io.responseTime))
                && (!completed ==> record == c && t.rows == [] && t.stats == stats && t.cache == ctx.cache))
  {
    var t := AudioTurn(c, ctx, stats, io, open);
    if c.audioChunks != [] && c.sessionId.Some? && AudioService.StreamTranscript(c.audioChunks, io.transcribe).Ok?
       && !Text.IsBlank(AudioService.StreamTranscript(c.audioChunks, io.transcribe).value) {
      ResponseRows(c.sessionId.value, AudioService.StreamTranscript(c.audioChunks, io.transcribe).value, ctx, io, open);
    }
  }

  /** A turn keeps the session rule of the record it changes. */
  lemma TurnKeepsSession(c: ClientRecord, transcribe: AudioService.Upload -> Result<string, string>)
    requires SessionHeld(c)
    ensures SessionHeld(TurnRecord(c, transcribe))
  {
  }

  /**
   * A non-blank transcription is appended to the text buffer with one
   * space, and `transcription_complete` carries it with the trimmed
   * buffer; a blank one sends `no_speech_detected` and keeps both buffers.
   */
  lemma TranscriptionFrames(c: ClientRecord, ctx: Context, stats: PerformanceStats, io: TurnIo, open: bool)
    requires c.audioChunks != [] && c.sessionId.Some? && AudioService.StreamTranscript(c.audioChunks, io.transcribe).Ok?
    ensures var text := AudioService.StreamTranscript(c.audioChunks, io.transcribe).value;
            var t := AudioTurn(c, ctx, stats, io, open);
            && (Text.IsBlank(text) ==> t.events == [ProcessingAudio, NoSpeechDetected] && TurnRecord(c, io.transcribe) == c)
            && (!Text.IsBlank(text) ==>
                  && TurnRecord(c, io.transcribe).textBuffer == c.textBuffer + text + " "
                  && |t.events| >= 2
                  && t.events[1] == TranscriptionComplete(text, Text.Trim(c.textBuffer + text + " ")))
  {
  }

  /** The start of a session: the session, its agent, or why it cannot start. */
  function StartCheck(sessions: seq<SessionRow>, agents: seq<AgentRow>, sessionId: Option<nat>): (r: Result<(nat, AgentRow), string>)
    ensures r.Ok? <==> sessionId.Some? && sessionId.value < |sessions| && sessions[sessionId.value].endedAt.None?
                       && sessions[sessionId.value].agentId < |agents|
    ensures r.Ok? ==> r.value == (sessionId.value, agents[sessions[sessionId.value].agentId])
    ensures r.Err? ==> r.error in {"Session not found", "Session is already ended", "Session agent not found"}
  {
    if sessionId.None? || sessionId.value >= |sessions| then Err("Session not found")
    else if sessions[sessionId.value].endedAt.Some? then Err("Session is already ended")
    else if sessions[sessionId.value].agentId >= |agents| then Err("Session agent not found")
    else Ok((sessionId.value, agents[sessions[sessionId.value].agentId]))
  }

  /** The ledger fields the cleanup touches. */
  datatype LedgerState = LedgerState(logs: seq<LogRecord>, current: Option<Accumulator>, savePending: bool, logFile: seq<LogRecord>)

  /** The ledger after the last client leaves: pending entries saved, then no session tracked. */
  function Cleared(s: LedgerState, fileError: bool): LedgerState
  {
    var saved := if s.savePending && !fileError then s.(logFile := s.logFile + s.logs, logs := [], savePending := false) else s;
    saved.(current := None)
  }

  /** The ledger's accumulator for a session that starts: ids as strings, nothing spent yet. */
  function StartedAccumulator(sid: nat, agent: AgentRow, sessions: seq<SessionRow>, now: int): Accumulator
    requires sid < |sessions|
  {
    Accumulator(NatToString(sid), NatToString(agent.userId), NatToString(sessions[sid].agentId), now, [], 0.0, 0, 0)
  }

  /** Removing one more key leaves nothing exactly when every key has been removed. */
  lemma LastRemoved(all: set<string>, done: set<string>, id: string)
    requires done <= all && id in all && id !in done
    ensures all - done == {id} <==> done + {id} == all
  {
    if all - done == {id} {
      forall k | k in all
        ensures k in done + {id}
      {
        if k !in done {
          assert k in all - done;
        }
      }
    }
  }

  /** Moving one pending element to the done side. */
  lemma MoveOne(all: set<string>, pending: set<string>, id: string)
    requires pending <= all && id in pending
    ensures all - (pending - {id}) == (all - pending) + {id}
  {
  }

  /** Removing one more key from a map. */
  lemma RemoveOneMore<V>(m: map<string, V>, done: set<string>, id: string)
    ensures m - (done + {id}) == (m - done) - {id}
  {
  }

  /** The sweep closes a client whose last message is more than five minutes old. */
  predicate Stale(c: ClientRecord, now: int)
  {
    now - c.lastActivity > IdleTimeout
  }

  function FreshRecord(now: int): (c: ClientRecord)
    ensures SessionHeld(c)
  {
    ClientRecord(None, [], "", false, now)
  }

  /** A set with one known member has one element exactly when it is that singleton. */
  lemma SingletonKeys(s: set<string>, x: string)
    requires x in s
    ensures |s| == 1 <==> s == {x}
  {
    if |s| == 1 {
      var rest := s - {x};
      assert |rest| == 0;
      assert s == rest + {x};
    }
  }

  // ---------------------------------------------------------------------
  // The service
  // ---------------------------------------------------------------------

  class VoiceConnections {
    var clients: map<string, ClientRecord>
    /** Frames sent on each client's socket, in order. */
    var sent: map<string, seq<Event>>
    var performanceStats: PerformanceStats
    const db: Database
    const replies: AiService.ReplyService

    /** The reply service and the statistics are consistent. */
    ghost predicate Ready()
      reads this`performanceStats, replies, replies.ledger
    {
      replies.Valid() && StatsValid(performanceStats)
    }

    /** In addition, every record that records or holds audio has a session. */
    ghost predicate Valid()
      reads this`clients, this`performanceStats, replies, replies.ledger
    {
      Ready() && RecordsValid(clients)
    }

    function Ctx(): Context
      reads db`sessions, db`agents, db`documents, db`messages, replies, replies.ledger
    {
      Context(db.sessions, db.agents, db.documents, |db.messages|, replies.Cache(), replies.View())
    }

    function Ledger(): LedgerState
      reads replies.ledger
    {
      LedgerState(replies.ledger.logs, replies.ledger.current, replies.ledger.savePending, replies.ledger.logFile)
    }

    constructor (db: Database, replies: AiService.ReplyService)
      requires replies.Valid()
      ensures Valid()
      ensures clients == map[] && sent == map[] && performanceStats == InitialStats
      ensures this.db == db && this.replies == replies
    {
      clients := map[];
      sent := map[];
      performanceStats := InitialStats;
      this.db := db;
      this.replies := replies;
      new;
      InitialStatsValid();
    }

    /** Frames written to the client's socket, one after the other. */
    method Send(clientId: string, frames: seq<Event>)
      modifies this`sent
      ensures sent == Appended(old(sent), clientId, frames)
    {
      if frames != [] {
        sent := sent[clientId := Stream(sent, clientId) + frames];
      }
    }

    /** The connection handler: a fresh record and the `connection_established` frame. */
    method Connect(clientId: string, now: int)
      requires Valid()
      modifies this`clients, this`sent
      ensures Valid()
      ensures clients == old(clients)[clientId := FreshRecord(now)]
      ensures sent == Appended(old(sent), clientId, [ConnectionEstablished(clientId)])
    {
      clients := clients[clientId := FreshRecord(now)];
      Send(clientId, [ConnectionEstablished(clientId)]);
    }

    /** `trackPerformance(responseTime)`. */
    method TrackPerformance(responseTime: int)
      requires StatsValid(performanceStats)
      modifies this`performanceStats
      ensures performanceStats == Tracked(old(performanceStats), responseTime)
      ensures StatsValid(performanceStats)
    {
      TrackedValid(performanceStats, responseTime);
      var s := performanceStats;
      s := s.(totalRequests := s.totalRequests + 1, responseTimes := s.responseTimes + [responseTime]);
      if s.fastestResponse.None? || responseTime < s.fastestResponse.value {
        s := s.(fastestResponse := Some(responseTime));
      }
      if responseTime > s.slowestResponse {
        s := s.(slowestResponse := responseTime);
      }
      var total := SumTimes(s.responseTimes);
      s := s.(averageResponseTime := total as real / |s.responseTimes| as real);
      performanceStats := s;
    }

    /**
     * `handleStartSession`: on success the record gets the session, starts
     * recording with empty buffers, the ledger starts tracking the session
     * and `session_started` is sent; otherwise only the error frame.
     */
    method HandleStartSession(clientId: string, sessionId: Option<nat>, now: int)
      requires Valid()
      modifies this`clients, this`sent, replies.ledger
      ensures Valid()
      ensures clientId !in old(clients) ==> clients == old(clients) && sent == old(sent) && Ledger() == old(Ledger())
      ensures clientId in old(clients) ==>
                var c := old(clients)[clientId];
                match StartCheck(db.sessions, db.agents, sessionId)
                case Err(e) =>
                  && clients == old(clients) && Ledger() == old(Ledger())
                  && sent == Appended(old(sent), clientId, [ErrorEvent(StartFailurePrefix + e)])
                case Ok((sid, agent)) =>
                  && clients == old(clients)[clientId := c.(sessionId := Some(sid), isRecording := true,
                                                            audioChunks := [], textBuffer := "")]
                  && sent == Appended(old(sent), clientId, [SessionStarted(sid)])
                  && Ledger() == old(Ledger()).(logs := [], current := Some(StartedAccumulator(sid, agent, db.sessions, now)))
    {
      if clientId !in clients {
        return;
      }
      var check := StartCheck(db.sessions, db.agents, sessionId);
      if check.Err? {
        Send(clientId, [ErrorEvent(StartFailurePrefix + check.error)]);
        return;
      }
      var (sid, agent) := check.value;
      var c := clients[clientId];
      clients := clients[clientId := c.(sessionId := Some(sid), isRecording := true, audioChunks := [], textBuffer := "")];
      replies.ledger.StartSession(NatToString(sid), NatToString(agent.userId), NatToString(db.sessions[sid].agentId), now);
      Send(clientId, [SessionStarted(sid)]);
    }

    /**
     * `handleAudioChunk`: ignored unless the client records and its socket
     * is open; a chunk is appended at the end and acknowledged with the new
     * count; missing audio data is reported and appends nothing.
     */
    method HandleAudioChunk(clientId: string, audioData: Option<seq<byte>>, socketOpen: bool)
      requires Valid()
      modifies this`clients, this`sent
      ensures Valid()
      ensures !(clientId in old(clients) && old(clients)[clientId].isRecording && socketOpen) ==>
                clients == old(clients) && sent == old(sent)
      ensures clientId in old(clients) && old(clients)[clientId].isRecording && socketOpen ==>
                var c := old(clients)[clientId];
                && (audioData.None? ==>
                      clients == old(clients)
                      && sent == Appended(old(sent), clientId, [ErrorEvent("Error processing audio chunk")]))
                && (audioData.Some? ==>
                      && clients == old(clients)[clientId := c.(audioChunks := c.audioChunks + [audioData.value])]
                      && sent == Appended(old(sent), clientId, [AudioReceived(|c.audioChunks| + 1)]))
    {
      if clientId !in clients || !clients[clientId].isRecording || !socketOpen {
        return;
      }
      if audioData.None? {
        Send(clientId, [ErrorEvent("Error processing audio chunk")]);
        return;
      }
      var c := clients[clientId];
      var chunks := c.audioChunks + [audioData.value];
      clients := clients[clientId := c.(audioChunks := chunks)];
      Send(clientId, [AudioReceived(|chunks|)]);
    }

    /** Speak-successful end of a response: store the bot message, log it, send it when the socket is open. */
    method SendSpoken(clientId: string, sessionId: nat, text: string, reply: string, v: Voice,
                      marker: bool, now: int, socketOpen: bool)
      requires replies.ledger.Valid()
      modifies this`sent, db`messages, replies.ledger
      ensures replies.ledger.Valid()
      ensures var tl := Spoken(sessionId, text, reply, v, |old(db.messages)|, old(replies.View()), marker, now, socketOpen);
              && sent == Appended(old(sent), clientId, tl.events)
              && db.messages == old(db.messages) + tl.rows
              && replies.View() == tl.ledger
      ensures replies.ledger.logFile == old(replies.ledger.logFile)
    {
      var id := |db.messages|;
      db.messages := db.messages + [SpokenRow(sessionId, reply, v)];
      replies.ledger.LogMessage(id, text, reply, DurationOf(v, marker), now);
      if socketOpen {
        Send(clientId, [BotResponse(reply, v.audio, v.url, id)]);
      }
    }

    /** The first steps of both response flows: `generating_response`, the reply, the stored user message. */
    method BeginResponse(clientId: string, sessionId: nat, text: string, io: TurnIo, ghost ctx: Context) returns (reply: string)
      requires replies.Valid() && ctx == Ctx()
      modifies this`sent, db`messages, replies, replies.ledger
      ensures replies.Valid()
      ensures var t := Reply(sessionId, text, ctx, io);
              && reply == t.reply
              && replies.Cache() == t.cache
              && replies.View() == AiService.AfterCalls(ctx.ledger, t.calls, io.now)
      ensures sent == Appended(old(sent), clientId, [GeneratingResponse])
      ensures db.messages == old(db.messages) + [HeardRow(sessionId, text)]
      ensures replies.ledger.logFile == old(replies.ledger.logFile)
    {
      Send(clientId, [GeneratingResponse]);
      var view := MessageService.SessionViewOf(db.sessions, db.agents, db.documents, sessionId);
      reply := replies.GenerateUltraFastResponse(text, view, io.retrieval, io.chat, io.now);
      db.messages := db.messages + [HeardRow(sessionId, text)];
    }

    /** `generateAndSendResponse` once the client's session is known. */
    method RespondPlain(clientId: string, sessionId: nat, text: string, io: TurnIo, socketOpen: bool, ghost ctx: Context)
      requires replies.Valid() && ctx == Ctx()
      modifies this`sent, db`messages, replies, replies.ledger
      ensures replies.Valid()
      ensures replies.ledger.logFile == old(replies.ledger.logFile)
      ensures var r := PlainResponse(sessionId, text, ctx, io, socketOpen);
              && sent == Appended(old(sent), clientId, r.events)
              && db.messages == old(db.messages) + r.rows
              && replies.Cache() == r.cache && replies.View() == r.ledger
    {
      ghost var t := Reply(sessionId, text, ctx, io);
      var reply := BeginResponse(clientId, sessionId, text, io, ctx);
      var voice := SpeakReply(reply, io.retrySpeech);
      if voice.None? {
        var apology := ErrorEvent(MessageService.FallbackReply);
        Send(clientId, [apology]);
        AppendedTwice(old(sent), clientId, [GeneratingResponse], [apology]);
        assert [GeneratingResponse] + [apology] == [GeneratingResponse, apology];
        return;
      }
      ghost var tl := Spoken(sessionId, text, reply, voice.value, ctx.messageCount + 1,
                             AiService.AfterCalls(ctx.ledger, t.calls, io.now), true, io.now, socketOpen);
      Regroup(old(db.messages), [HeardRow(sessionId, text)], tl.rows, db.messages, [HeardRow(sessionId, text)] + tl.rows);
      SendSpoken(clientId, sessionId, text, reply, voice.value, true, io.now, socketOpen);
      AppendedTwice(old(sent), clientId, [GeneratingResponse], tl.events);
    }

    /** `generateAndSendResponseOptimized` once the client's session is known. */
    method RespondOptimized(clientId: string, sessionId: nat, text: string, io: TurnIo, socketOpen: bool, ghost ctx: Context)
      requires replies.Valid() && ctx == Ctx()
      modifies this`sent, db`messages, replies, replies.ledger
      ensures replies.Valid()
      ensures replies.ledger.logFile == old(replies.ledger.logFile)
      ensures var r := OptimizedResponse(sessionId, text, ctx, io, socketOpen);
              && sent == Appended(old(sent), clientId, r.events)
              && db.messages == old(db.messages) + r.rows
              && replies.Cache() == r.cache && replies.View() == r.ledger
    {
      var reply := BeginResponse(clientId, sessionId, text, io, ctx);
      var voice := SpeakReply(reply, io.speech);
      ghost var retry := Ctx();
      assert retry == Advanced(sessionId, text, ctx, io);
      if voice.None? {
        ghost var r := PlainResponse(sessionId, text, retry, io, socketOpen);
        Regroup(old(db.messages), [HeardRow(sessionId, text)], r.rows, db.messages, [HeardRow(sessionId, text)] + r.rows);
        RespondPlain(clientId, sessionId, text, io, socketOpen, retry);
        AppendedTwice(old(sent), clientId, [GeneratingResponse], r.events);
        return;
      }
      ghost var tl := Spoken(sessionId, text, reply, voice.value, retry.messageCount, retry.ledger, false, io.now, socketOpen);
      Regroup(old(db.messages), [HeardRow(sessionId, text)], tl.rows, db.messages, [HeardRow(sessionId, text)] + tl.rows);
      SendSpoken(clientId, sessionId, text, reply, voice.value, false, io.now, socketOpen);
      AppendedTwice(old(sent), clientId, [GeneratingResponse], tl.events);
    }

    /** `generateAndSendResponse(clientId, userText)`: nothing without a client session. */
    method GenerateAndSendResponse(clientId: string, text: string, io: TurnIo, socketOpen: bool)
      requires replies.Valid()
      modifies this`sent, db`messages, replies, replies.ledger
      ensures replies.Valid()
      ensures replies.ledger.logFile == old(replies.ledger.logFile)
      ensures !(clientId in clients && clients[clientId].sessionId.Some?) ==>
                && sent == old(sent) && db.messages == old(db.messages)
                && replies.Cache() == old(replies.Cache()) && replies.View() == old(replies.View())
      ensures clientId in clients && clients[clientId].sessionId.Some? ==>
                var r := PlainResponse(clients[clientId].sessionId.value, text, old(Ctx()), io, socketOpen);
                && sent == Appended(old(sent), clientId, r.events)
                && db.messages == old(db.messages) + r.rows
                && replies.Cache() == r.cache && replies.View() == r.ledger
    {
      if clientId !in clients || clients[clientId].sessionId.None? {
        return;
      }
      RespondPlain(clientId, clients[clientId].sessionId.value, text, io, socketOpen, Ctx());
    }

    /**
     * `generateAndSendResponseOptimized(clientId, userText)`: nothing
     * without a client session; the preparation step's estimate is not
     * used by the speech request.
     */
    method GenerateAndSendResponseOptimized(clientId: string, text: string, io: TurnIo, socketOpen: bool)
      requires replies.Valid()
      modifies this`sent, db`messages, replies, replies.ledger
      ensures replies.Valid()
      ensures replies.ledger.logFile == old(replies.ledger.logFile)
      ensures !(clientId in clients && clients[clientId].sessionId.Some?) ==>
                && sent == old(sent) && db.messages == old(db.messages)
                && replies.Cache() == old(replies.Cache()) && replies.View() == old(replies.View())
      ensures clientId in clients && clients[clientId].sessionId.Some? ==>
                var r := OptimizedResponse(clients[clientId].sessionId.value, text, old(Ctx()), io, socketOpen);
                && sent == Appended(old(sent), clientId, r.events)
                && db.messages == old(db.messages) + r.rows
                && replies.Cache() == r.cache && replies.View() == r.ledger
    {
      if clientId !in clients || clients[clientId].sessionId.None? {
        return;
      }
      RespondOptimized(clientId, clients[clientId].sessionId.value, text, io, socketOpen, Ctx());
    }

    /**
     * `processAccumulatedAudio(clientId)`: the record's turn, as
     * `AudioTurn` gives it, applied to the record, the client's socket, the
     * stored messages, the cache, the ledger and the statistics.
     */
    method ProcessAccumulatedAudio(clientId: string, io: TurnIo, socketOpen: bool, ghost ctx: Context)
      requires Ready() && ctx == Ctx()
      modifies this`clients, this`sent, this`performanceStats, db`messages, replies, replies.ledger
      ensures Ready()
      ensures replies.ledger.logFile == old(replies.ledger.logFile)
      ensures clientId !in old(clients) ==>
                && clients == old(clients) && sent == old(sent) && performanceStats == old(performanceStats)
                && db.messages == old(db.messages)
                && replies.Cache() == old(replies.Cache()) && replies.View() == old(replies.View())
      ensures clientId in old(clients) ==>
                var t := AudioTurn(old(clients)[clientId], ctx, old(performanceStats), io, socketOpen);
                && clients == old(clients)[clientId := TurnRecord(old(clients)[clientId], io.transcribe)]
                && sent == Appended(old(sent), clientId, t.events)
                && db.messages == old(db.messages) + t.rows
                && replies.Cache() == t.cache && replies.View() == t.ledger
                && performanceStats == t.stats
    {
      if clientId !in clients {
        return;
      }
      var c := clients[clientId];
      if c.audioChunks == [] {
        assert clients[clientId := c] == clients;
        return;
      }
      if c.sessionId.None? {
        Send(clientId, [ErrorEvent(NoSessionMessage)]);
        assert clients[clientId := c] == clients;
        return;
      }
      var heard := AudioService.SpeechToTextStream(c.audioChunks, io.transcribe);
      if heard.Err? {
        Send(clientId, [ProcessingAudio, ErrorEvent(MessageService.AudioErrorPrefix + heard.error)]);
        assert clients[clientId := c] == clients;
        return;
      }
      if Text.IsBlank(heard.value) {
        Send(clientId, [ProcessingAudio, NoSpeechDetected]);
        assert clients[clientId := c] == clients;
        return;
      }
      CompleteTurn(clientId, heard.value, io, socketOpen, ctx);
    }

    /** A non-blank transcription: extend the text, confirm it, respond, record the time, empty the audio. */
    method CompleteTurn(clientId: string, text: string, io: TurnIo, socketOpen: bool, ghost ctx: Context)
      requires replies.Valid() && StatsValid(performanceStats) && ctx == Ctx()
      requires clientId in clients && clients[clientId].sessionId.Some?
      modifies this`clients, this`sent, this`performanceStats, db`messages, replies, replies.ledger
      ensures replies.Valid() && StatsValid(performanceStats)
      ensures replies.ledger.logFile == old(replies.ledger.logFile)
      ensures var c := old(clients)[clientId];
              var buffer := c.textBuffer + text + " ";
              var r := OptimizedResponse(c.sessionId.value, text, ctx, io, socketOpen);
              && clients == old(clients)[clientId := c.(textBuffer := buffer, audioChunks := [])]
              && sent == Appended(old(sent), clientId, [ProcessingAudio, TranscriptionComplete(text, Text.Trim(buffer))] + r.events)
              && db.messages == old(db.messages) + r.rows
              && replies.Cache() == r.cache && replies.View() == r.ledger
              && performanceStats == Tracked(old(performanceStats), io.responseTime)
    {
      var c := clients[clientId];
      var buffer := c.textBuffer + text + " ";
      var confirm := TranscriptionComplete(text, Text.Trim(buffer));
      clients := clients[clientId := c.(textBuffer := buffer, audioChunks := [])];
      TrackPerformance(io.responseTime);
      Send(clientId, [ProcessingAudio, confirm]);
      ghost var r := OptimizedResponse(c.sessionId.value, text, ctx, io, socketOpen);
      RespondOptimized(clientId, c.sessionId.value, text, io, socketOpen, ctx);
      AppendedTwice(old(sent), clientId, [ProcessingAudio, confirm], r.events);
    }

    /** `handleStopRecording`: recording stops, then the buffered audio is processed. */
    method HandleStopRecording(clientId: string, io: TurnIo, socketOpen: bool)
      requires Valid()
      modifies this`clients, this`sent, this`performanceStats, db`messages, replies, replies.ledger
      ensures Valid()
      ensures replies.ledger.logFile == old(replies.ledger.logFile)
      ensures clientId !in old(clients) ==>
                && clients == old(clients) && sent == old(sent) && performanceStats == old(performanceStats)
                && db.messages == old(db.messages)
                && replies.Cache() == old(replies.Cache()) && replies.View() == old(replies.View())
      ensures clientId in old(clients) ==>
                var t := AudioTurn(old(clients)[clientId].(isRecording := false), old(Ctx()), old(performanceStats), io, socketOpen);
                && clients == old(clients)[clientId := TurnRecord(old(clients)[clientId].(isRecording := false), io.transcribe)]
                && sent == Appended(old(sent), clientId, t.events)
                && db.messages == old(db.messages) + t.rows
                && replies.Cache() == t.cache && replies.View() == t.ledger
                && performanceStats == t.stats
    {
      if clientId !in clients {
        return;
      }
      ghost var ctx := Ctx();
      var c := clients[clientId].(isRecording := false);
      TurnKeepsSession(c, io.transcribe);
      RecordsValidUpdate(clients, clientId, c);
      clients := clients[clientId := c];
      RecordsValidUpdate(clients, clientId, TurnRecord(c, io.transcribe));
      UpdateTwice(old(clients), clientId, c, TurnRecord(c, io.transcribe));
      ProcessAccumulatedAudio(clientId, io, socketOpen, ctx);
    }

    /** A message from a known client refreshes its activity time. */
    method Touch(clientId: string, now: int)
      requires Valid() && clientId in clients
      modifies this`clients
      ensures Valid()
      ensures clients == old(clients)[clientId := old(clients)[clientId].(lastActivity := now)]
    {
      var c := clients[clientId].(lastActivity := now);
      RecordsValidUpdate(clients, clientId, c);
      clients := clients[clientId := c];
    }

    /**
     * The socket's message handler with `handleMessage`: a frame that does
     * not parse is answered with an error; a message for an unknown client
     * is dropped; otherwise the client's activity time is refreshed and the
     * message dispatched by its type (an unknown type changes nothing else).
     */
    method HandleMessage(clientId: string, frame: Option<Message>, now: int, io: TurnIo, socketOpen: bool)
      requires Valid()
      modifies this`clients, this`sent, this`performanceStats, db`messages, replies, replies.ledger
      ensures Valid()
      ensures replies.ledger.logFile == old(replies.ledger.logFile)
      ensures frame.None? || clientId !in old(clients) ==>
                && clients == old(clients) && performanceStats == old(performanceStats) && db.messages == old(db.messages)
                && replies.Cache() == old(replies.Cache()) && Ledger() == old(Ledger())
                && sent == Appended(old(sent), clientId, if frame.None? then [ErrorEvent("Error processing message")] else [])
      ensures frame.Some? && clientId in old(clients) && frame.value.StopRecordingMessage? ==>
                var c := old(clients)[clientId].(lastActivity := now, isRecording := false);
                var t := AudioTurn(c, old(Ctx()), old(performanceStats), io, socketOpen);
                && clients == old(clients)[clientId := TurnRecord(c, io.transcribe)]
                && sent == Appended(old(sent), clientId, t.events)
                && db.messages == old(db.messages) + t.rows
                && replies.Cache() == t.cache && replies.View() == t.ledger
                && performanceStats == t.stats
      ensures frame.Some? && clientId in old(clients) && !frame.value.StopRecordingMessage? ==>
                && performanceStats == old(performanceStats) && db.messages == old(db.messages)
                && replies.Cache() == old(replies.Cache())
      ensures frame.Some? && clientId in old(clients) && frame.value.StartSessionMessage? ==>
                var c := old(clients)[clientId].(lastActivity := now);
                match StartCheck(db.sessions, db.agents, frame.value.sessionId)
                case Err(e) =>
                  && clients == old(clients)[clientId := c] && Ledger() == old(Ledger())
                  && sent == Appended(old(sent), clientId, [ErrorEvent(StartFailurePrefix + e)])
                case Ok((sid, agent)) =>
                  && clients == old(clients)[clientId := c.(sessionId := Some(sid), isRecording := true,
                                                            audioChunks := [], textBuffer := "")]
                  && sent == Appended(old(sent), clientId, [SessionStarted(sid)])
                  && Ledger() == old(Ledger()).(logs := [], current := Some(StartedAccumulator(sid, agent, db.sessions, now)))
      ensures frame.Some? && clientId in old(clients) && frame.value.AudioChunkMessage? ==>
                var c := old(clients)[clientId].(lastActivity := now);
                var audioData := frame.value.audioData;
                && Ledger() == old(Ledger())
                && (if !c.isRecording || !socketOpen then clients == old(clients)[clientId := c] && sent == old(sent)
                    else if audioData.None? then
                      && clients == old(clients)[clientId := c]
                      && sent == Appended(old(sent), clientId, [ErrorEvent("Error processing audio chunk")])
                    else
                      && clients == old(clients)[clientId := c.(audioChunks := c.audioChunks + [audioData.value])]
                      && sent == Appended(old(sent), clientId, [AudioReceived(|c.audioChunks| + 1)]))
      ensures frame.Some? && clientId in old(clients) && frame.value.PingMessage? ==>
                && clients == old(clients)[clientId := old(clients)[clientId].(lastActivity := now)]
                && Ledger() == old(Ledger())
                && sent == Appended(old(sent), clientId, [Pong(now)])
      ensures frame.Some? && clientId in old(clients) && frame.value.OtherMessage? ==>
                && clients == old(clients)[clientId := old(clients)[clientId].(lastActivity := now)]
                && sent == old(sent) && Ledger() == old(Ledger())
    {
      if frame.None? {
        Send(clientId, [ErrorEvent("Error processing message")]);
        return;
      }
      if clientId !in clients {
        return;
      }
      var c := clients[clientId].(lastActivity := now);
      Touch(clientId, now);
      match frame.value
      case StartSessionMessage(sessionId) =>
        var check := StartCheck(db.sessions, db.agents, sessionId);
        if check.Ok? {
          UpdateTwice(old(clients), clientId, c,
                      c.(sessionId := Some(check.value.0), isRecording := true, audioChunks := [], textBuffer := ""));
        }
        HandleStartSession(clientId, sessionId, now);
      case AudioChunkMessage(audioData) =>
        if audioData.Some? {
          UpdateTwice(old(clients), clientId, c, c.(audioChunks := c.audioChunks + [audioData.value]));
        }
        HandleAudioChunk(clientId, audioData, socketOpen);
      case StopRecordingMessage =>
        UpdateTwice(old(clients), clientId, c, TurnRecord(c.(isRecording := false), io.transcribe));
        HandleStopRecording(clientId, io, socketOpen);
      case PingMessage =>
        Send(clientId, [Pong(now)]);
      case OtherMessage(_) =>
    }

    /**
     * `cleanupClient`: the record is removed; when it was the last one, a
     * pending save is written first and the ledger stops tracking the
     * session. An unknown id changes nothing.
     */
    method CleanupClient(clientId: string, fileError: bool)
      requires replies.ledger.Valid()
      modifies this`clients, replies.ledger
      ensures replies.ledger.Valid()
      ensures clients == old(clients) - {clientId}
      ensures Ledger() == if old(clients).Keys == {clientId} then Cleared(old(Ledger()), fileError) else old(Ledger())
    {
      if clientId !in clients {
        return;
      }
      SingletonKeys(clients.Keys, clientId);
      if |clients| == 1 {
        if replies.ledger.savePending {
          replies.ledger.SaveLogs(fileError);
        }
        replies.ledger.current := None;
      }
      clients := clients - {clientId};
    }

    /** One stale client in the sweep: its socket is closed, then it is cleaned up. */
    method CloseIdle(clientId: string, fileError: bool)
      requires replies.ledger.Valid()
      modifies this`clients, this`sent, replies.ledger
      ensures replies.ledger.Valid()
      ensures clients == old(clients) - {clientId}
      ensures forall k :: Stream(sent, k) == if k == clientId then Stream(old(sent), k) + [Closed] else Stream(old(sent), k)
      ensures Ledger() == if old(clients).Keys == {clientId} then Cleared(old(Ledger()), fileError) else old(Ledger())
    {
      AppendedStreams(sent, clientId, [Closed]);
      Send(clientId, [Closed]);
      CleanupClient(clientId, fileError);
    }

    /**
     * The idle sweep run every minute: every client silent for more than
     * five minutes has its socket closed and is cleaned up; the ledger is
     * cleared when that removes the last client.
     */
    method Sweep(now: int, fileError: bool)
      requires Valid()
      modifies this`clients, this`sent, replies.ledger
      ensures Valid()
      ensures var stale := set id | id in old(clients) && Stale(old(clients)[id], now);
              && clients == old(clients) - stale
              && (forall id :: Stream(sent, id) == if id in stale then Stream(old(sent), id) + [Closed] else Stream(old(sent), id))
              && Ledger() == if old(clients) != map[] && stale == old(clients).Keys then Cleared(old(Ledger()), fileError)
                             else old(Ledger())
    {
      var stale := set id | id in clients && Stale(clients[id], now);
      CloseAll(stale, fileError);
    }

    /** The state after closing the clients in `done`, starting from the given clients, streams and ledger. */
    ghost predicate ClosedAfter(clients0: map<string, ClientRecord>, sent0: map<string, seq<Event>>,
                                ledger0: LedgerState, done: set<string>, fileError: bool)
      reads this, replies.ledger
    {
      && clients == clients0 - done
      && (forall id :: Stream(sent, id) == if id in done then Stream(sent0, id) + [Closed] else Stream(sent0, id))
      && Ledger() == if clients0 != map[] && done == clients0.Keys then Cleared(ledger0, fileError) else ledger0
    }

    /** One turn of the sweep's loop: one more stale client closed. */
    method CloseNext(id: string, ghost clients0: map<string, ClientRecord>, ghost sent0: map<string, seq<Event>>,
                     ghost ledger0: LedgerState, ghost done: set<string>, fileError: bool)
      requires replies.ledger.Valid() && ClosedAfter(clients0, sent0, ledger0, done, fileError)
      requires done <= clients0.Keys && id in clients0 && id !in done
      modifies this`clients, this`sent, replies.ledger
      ensures replies.ledger.Valid() && ClosedAfter(clients0, sent0, ledger0, done + {id}, fileError)
    {
      LastRemoved(clients0.Keys, done, id);
      RemoveOneMore(clients0, done, id);
      assert clients.Keys == clients0.Keys - done;
      CloseIdle(id, fileError);
    }

    /** The sweep's loop over the stale clients, in any order. */
    method CloseAll(stale: set<string>, fileError: bool)
      requires replies.ledger.Valid() && stale <= clients.Keys
      modifies this`clients, this`sent, replies.ledger
      ensures replies.ledger.Valid()
      ensures clients == old(clients) - stale
      ensures forall id :: Stream(sent, id) == if id in stale then Stream(old(sent), id) + [Closed] else Stream(old(sent), id)
      ensures Ledger() == if old(clients) != map[] && stale == old(clients).Keys then Cleared(old(Ledger()), fileError)
                          else old(Ledger())
    {
      var pending := stale;
      ghost var done: set<string> := {};
      while pending != {}
        invariant replies.ledger.Valid()
        invariant pending <= stale && done == stale - pending
        invariant ClosedAfter(old(clients), old(sent), old(Ledger()), done, fileError)
        decreases pending
      {
        var id :| id in pending;
        MoveOne(stale, pending, id);
        CloseNext(id, old(clients), old(sent), old(Ledger()), done, fileError);
        pending := pending - {id};
        done := done + {id};
      }
    }
  }
}
