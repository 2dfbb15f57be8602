/**
 * The usage ledger behind the logging service: a per-model price table, the
 * cost function over it, the accumulator of the session being tracked, the
 * buffer of entries waiting to be written and the day's log file they are
 * appended to. Costs are exact `real`s; timestamps are passed in.
 */
module UsageLedger {
  import opened Common

  /** Dollars per unit of input and of output. */
  datatype Rate = Rate(input: real, output: real)

  /** `TOKEN_COSTS`: per 1K tokens for the chat models, per minute for whisper-1, per 1K characters for tts-1-hd. */
  function RateOf(modelName: string): (r: Option<Rate>)
    ensures r.Some? <==> modelName in {"gpt-3.5-turbo", "gpt-4o-mini", "whisper-1", "tts-1-hd"}
  {
    if modelName == "gpt-3.5-turbo" then Some(Rate(0.0015, 0.002))
    else if modelName == "gpt-4o-mini" then Some(Rate(0.00015, 0.0006))
    else if modelName == "whisper-1" then Some(Rate(0.006, 0.0))
    else if modelName == "tts-1-hd" then Some(Rate(0.015, 0.0))
    else None
  }

  /** `calculateCost(modelName, inputTokens, outputTokens)`. */
  function CalculateCost(modelName: string, inputTokens: nat, outputTokens: nat): (cost: real)
    ensures RateOf(modelName).None? ==> cost == 0.0
    ensures modelName == "gpt-3.5-turbo" ==> cost == inputTokens as real / 1000.0 * 0.0015 + outputTokens as real / 1000.0 * 0.002
    ensures modelName == "gpt-4o-mini" ==> cost == inputTokens as real / 1000.0 * 0.00015 + outputTokens as real / 1000.0 * 0.0006
    ensures modelName == "tts-1-hd" ==> cost == inputTokens as real / 1000.0 * 0.015
    ensures modelName == "whisper-1" ==> cost == inputTokens as real / 60.0 * 0.006
    ensures cost >= 0.0
  {
    match RateOf(modelName)
    case None => 0.0
    case Some(rate) =>
      if modelName == "tts-1-hd" then inputTokens as real / 1000.0 * rate.input
      else if modelName == "whisper-1" then inputTokens as real / 60.0 * rate.input
      else inputTokens as real / 1000.0 * rate.input + outputTokens as real / 1000.0 * rate.output
  }

  /** The output count never changes what speech synthesis or transcription cost. */
  lemma AudioCostIgnoresOutput(modelName: string, inputTokens: nat, out1: nat, out2: nat)
    requires modelName == "tts-1-hd" || modelName == "whisper-1"
    ensures CalculateCost(modelName, inputTokens, out1) == CalculateCost(modelName, inputTokens, out2)
  {
  }

  /** More tokens never cost less. */
  lemma CostMonotone(modelName: string, in1: nat, out1: nat, in2: nat, out2: nat)
    requires in1 <= in2 && out1 <= out2
    ensures CalculateCost(modelName, in1, out1) <= CalculateCost(modelName, in2, out2)
  {
  }

  /** A model-usage entry (`logEntry`); `metadata` is left out. */
  datatype UsageEntry = UsageEntry(
    timestamp: int, sessionId: string, modelType: string, modelName: string,
    inputTokens: nat, outputTokens: nat, cost: real)

  /** The running totals copied into a message entry. */
  datatype Totals = Totals(totalCost: real, totalInputTokens: nat, totalOutputTokens: nat)

  /**
   * The `audioDuration` of a message entry: a number of milliseconds (the
   * default 0 when the argument is `undefined`), or the string "fallback"
   * the voice service passes when the single-request speech was used.
   */
  datatype AudioDuration = Millis(ms: int) | FallbackMarker

  /** An entry of the buffer and of the log file. */
  datatype LogRecord =
    | Usage(entry: UsageEntry)
    | MessageLog(messageId: nat, sessionId: string, timestamp: int, userText: string,
                 botResponse: string, audioDuration: AudioDuration, sessionStats: Totals)

  function SessionOf(r: LogRecord): string
  {
    if r.Usage? then r.entry.sessionId else r.sessionId
  }

  /** The session being tracked (`currentSession`). */
  datatype Accumulator = Accumulator(
    sessionId: string, userId: string, agentId: string, startTime: int,
    messages: seq<UsageEntry>, totalCost: real, totalInputTokens: nat, totalOutputTokens: nat)

  function SumCost(es: seq<UsageEntry>): real
  {
    if es == [] then 0.0 else SumCost(es[..|es| - 1]) + es[|es| - 1].cost
  }

  function SumInput(es: seq<UsageEntry>): nat
  {
    if es == [] then 0 else SumInput(es[..|es| - 1]) + es[|es| - 1].inputTokens
  }

  function SumOutput(es: seq<UsageEntry>): nat
  {
    if es == [] then 0 else SumOutput(es[..|es| - 1]) + es[|es| - 1].outputTokens
  }

  /** The totals are the sums over the recorded entries, all of this session. */
  predicate Consistent(a: Accumulator)
  {
    && a.totalCost == SumCost(a.messages)
    && a.totalInputTokens == SumInput(a.messages)
    && a.totalOutputTokens == SumOutput(a.messages)
    && (forall k :: 0 <= k < |a.messages| ==> a.messages[k].sessionId == a.sessionId)
  }

  /** The accumulator after recording `e`. */
  function Record(a: Accumulator, e: UsageEntry): Accumulator
  {
    a.(messages := a.messages + [e],
       totalCost := a.totalCost + e.cost,
       totalInputTokens := a.totalInputTokens + e.inputTokens,
       totalOutputTokens := a.totalOutputTokens + e.outputTokens)
  }

  /** Recording an entry of the session keeps the totals equal to the sums. */
  lemma RecordConsistent(a: Accumulator, e: UsageEntry)
    requires Consistent(a) && e.sessionId == a.sessionId
    ensures Consistent(Record(a, e))
  {
    var ms := a.messages + [e];
    assert ms[..|ms| - 1] == a.messages;
  }

  /** `getCurrentSessionStats()`'s result. */
  datatype SessionStats = SessionStats(
    sessionId: string, startTime: int, totalCost: real,
    totalInputTokens: nat, totalOutputTokens: nat, messageCount: nat)

  /** `logs.filter(log => log.sessionId === sessionId)`. */
  function FilterSession(rs: seq<LogRecord>, sessionId: string): (out: seq<LogRecord>)
    ensures |out| <= |rs|
    ensures forall k :: 0 <= k < |out| ==> SessionOf(out[k]) == sessionId
  {
    if rs == [] then []
    else FilterSession(rs[..|rs| - 1], sessionId) + (if SessionOf(rs[|rs| - 1]) == sessionId then [rs[|rs| - 1]] else [])
  }

  /** The filter keeps exactly the matching entries. */
  lemma {:induction false} FilterSessionMembers(rs: seq<LogRecord>, sessionId: string, x: LogRecord)
    ensures x in FilterSession(rs, sessionId) <==> x in rs && SessionOf(x) == sessionId
  {
    if rs != [] {
      var init := rs[..|rs| - 1];
      FilterSessionMembers(init, sessionId, x);
      assert rs == init + [rs[|rs| - 1]];
    }
  }

  /** Filtering an appended file is filtering each part. */
  lemma {:induction false} FilterSessionAppend(a: seq<LogRecord>, b: seq<LogRecord>, sessionId: string)
    ensures FilterSession(a + b, sessionId) == FilterSession(a, sessionId) + FilterSession(b, sessionId)
    decreases |b|
  {
    if b == [] {
      assert a + b == a;
    } else {
      var b' := b[..|b| - 1];
      assert (a + b)[..|a + b| - 1] == a + b';
      FilterSessionAppend(a, b', sessionId);
    }
  }

  class Ledger {
    /** Entries waiting to be written (`this.logs`). */
    var logs: seq<LogRecord>
    var current: Option<Accumulator>
    /** A debounced save is scheduled (`saveTimeout` is set). */
    var savePending: bool
    /** The entries of today's log file. */
    var logFile: seq<LogRecord>

    predicate Valid()
      reads this
    {
      current.Some? ==> Consistent(current.value)
    }

    constructor (existingFile: seq<LogRecord>)
      ensures Valid()
      ensures logs == [] && current.None? && !savePending && logFile == existingFile
    {
      logs := [];
      current := None;
      savePending := false;
      logFile := existingFile;
    }

    /** `startSession`: drops the buffer and starts a fresh accumulator. */
    method StartSession(sessionId: string, userId: string, agentId: string, now: int)
      requires Valid()
      modifies this
      ensures Valid()
      ensures logs == []
      ensures current == Some(Accumulator(sessionId, userId, agentId, now, [], 0.0, 0, 0))
      ensures savePending == old(savePending) && logFile == old(logFile)
    {
      logs := [];
      current := Some(Accumulator(sessionId, userId, agentId, now, [], 0.0, 0, 0));
    }

    /**
     * `logModelUsage`: without a tracked session nothing changes; otherwise
     * the entry goes to both the session and the buffer and the totals grow
     * by exactly its amounts.
     */
    method LogModelUsage(modelType: string, modelName: string, inputTokens: nat, outputTokens: nat, cost: real, now: int)
      requires Valid()
      modifies this
      ensures Valid()
      ensures old(current).None? ==> current == old(current) && logs == old(logs)
      ensures old(current).Some? ==>
        var a := old(current).value;
        var e := UsageEntry(now, a.sessionId, modelType, modelName, inputTokens, outputTokens, cost);
        && current == Some(Record(a, e))
        && current.value.messages == a.messages + [e]
        && current.value.totalCost == a.totalCost + cost
        && current.value.totalInputTokens == a.totalInputTokens + inputTokens
        && current.value.totalOutputTokens == a.totalOutputTokens + outputTokens
        && logs == old(logs) + [Usage(e)]
      ensures savePending == old(savePending) && logFile == old(logFile)
    {
      if current.None? {
        return;
      }
      var a := current.value;
      var e := UsageEntry(now, a.sessionId, modelType, modelName, inputTokens, outputTokens, cost);
      RecordConsistent(a, e);
      current := Some(Record(a, e));
      logs := logs + [Usage(e)];
    }

    /**
     * `logMessage`: without a tracked session nothing changes; otherwise a
     * message entry carrying the current totals is buffered and a save is
     * scheduled. The session itself is untouched.
     */
    method LogMessage(messageId: nat, userText: string, botResponse: string, audioDuration: AudioDuration, now: int)
      requires Valid()
      modifies this
      ensures Valid()
      ensures current == old(current) && logFile == old(logFile)
      ensures old(current).None? ==> logs == old(logs) && savePending == old(savePending)
      ensures old(current).Some? ==>
        var a := old(current).value;
        && logs == old(logs) + [MessageLog(messageId, a.sessionId, now, userText, botResponse, audioDuration,
                                           Totals(a.totalCost, a.totalInputTokens, a.totalOutputTokens))]
        && savePending
    {
      if current.None? {
        return;
      }
      var a := current.value;
      logs := logs + [MessageLog(messageId, a.sessionId, now, userText, botResponse, audioDuration,
                                 Totals(a.totalCost, a.totalInputTokens, a.totalOutputTokens))];
      savePending := true;
    }

    /**
     * `saveLogs`: the buffer is appended after the file's entries and
     * emptied. When reading or parsing the file fails (`fileError`), the
     * error is caught and nothing changes.
     */
    method SaveLogs(fileError: bool)
      requires Valid()
      modifies this
      ensures Valid()
      ensures current == old(current)
      ensures fileError ==> logs == old(logs) && logFile == old(logFile) && savePending == old(savePending)
      ensures !fileError ==> logFile == old(logFile) + old(logs) && logs == [] && !savePending
    {
      if fileError {
        return;
      }
      logFile := logFile + logs;
      logs := [];
      savePending := false;
    }

    /**
     * `forceSaveLogs`: the scheduled save is cancelled and the buffer is
     * saved at once; a failed save keeps the buffer but nothing stays scheduled.
     */
    method ForceSaveLogs(fileError: bool)
      requires Valid()
      modifies this
      ensures Valid()
      ensures current == old(current) && !savePending
      ensures fileError ==> logs == old(logs) && logFile == old(logFile)
      ensures !fileError ==> logFile == old(logFile) + old(logs) && logs == []
    {
      savePending := false;
      SaveLogs(fileError);
    }

    /** `getSessionLogs(sessionId)`: the file's entries of that session, in file order. */
    function GetSessionLogs(sessionId: string): (r: seq<LogRecord>)
      reads this
      ensures forall x :: x in r <==> x in logFile && SessionOf(x) == sessionId
    {
      forall x ensures x in FilterSession(logFile, sessionId) <==> x in logFile && SessionOf(x) == sessionId {
        FilterSessionMembers(logFile, sessionId, x);
      }
      FilterSession(logFile, sessionId)
    }

    /**
     * `getAllLogs()`: today's file in file order; every session's logs are
     * exactly its entries in it.
     */
    function GetAllLogs(): (r: seq<LogRecord>)
      reads this
      ensures |r| == |logFile|
      ensures forall sessionId :: GetSessionLogs(sessionId) == FilterSession(r, sessionId)
    {
      logFile
    }

    /** `getCurrentSessionStats()`: null exactly when no session is tracked. */
    function GetCurrentSessionStats(): (s: Option<SessionStats>)
      reads this
      ensures s.None? <==> current.None?
      ensures s.Some? ==>
        && s.value.sessionId == current.value.sessionId
        && s.value.totalCost == current.value.totalCost
        && s.value.totalInputTokens == current.value.totalInputTokens
        && s.value.totalOutputTokens == current.value.totalOutputTokens
        && s.value.messageCount == |current.value.messages|
    {
      if current.None? then None
      else
        var a := current.value;
        Some(SessionStats(a.sessionId, a.startTime, a.totalCost, a.totalInputTokens, a.totalOutputTokens, |a.messages|))
    }
  }

  /**
   * After a save, a session's logs are its earlier logs followed by its
   * buffered entries, in buffer order.
   */
  lemma SavedSessionLogs(file: seq<LogRecord>, buffer: seq<LogRecord>, sessionId: string)
    ensures FilterSession(file + buffer, sessionId) == FilterSession(file, sessionId) + FilterSession(buffer, sessionId)
  {
    FilterSessionAppend(file, buffer, sessionId);
  }

  /**
   * A started session, then usage of two models: the stats count two
   * entries, and their totals are the two costs and token counts.
   */
  method TwoCallsThenStats(sessionId: string, in1: nat, out1: nat, in2: nat, out2: nat)
    returns (stats: Option<SessionStats>)
    ensures stats.Some?
    ensures stats.value.messageCount == 2
    ensures stats.value.totalInputTokens == in1 + in2 && stats.value.totalOutputTokens == out1 + out2
    ensures stats.value.totalCost == CalculateCost("gpt-3.5-turbo", in1, out1) + CalculateCost("tts-1-hd", in2, out2)
  {
    var ledger := new Ledger([]);
    ledger.StartSession(sessionId, "user", "agent", 0);
    ledger.LogModelUsage("llm", "gpt-3.5-turbo", in1, out1, CalculateCost("gpt-3.5-turbo", in1, out1), 1);
    ledger.LogModelUsage("tts", "tts-1-hd", in2, out2, CalculateCost("tts-1-hd", in2, out2), 2);
    stats := ledger.GetCurrentSessionStats();
  }
}
