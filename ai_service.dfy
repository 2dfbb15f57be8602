/**
 * Reply generation: the module-level response cache (at most 1000
 * entries, oldest-first eviction, key = lower-cased trimmed text), the
 * retrieval-context string, the chat message list, and the three reply
 * flows with their fixed apologies. The chat model, the embedding search
 * and the session lookup are oracle values passed in; the usage ledger
 * is the shared `UsageLedger.Ledger`.
 */
module AiService {
  import opened Common
  import opened Text
  import opened UsageLedger

  // ---------------------------------------------------------------- cache

  const CacheLimit: nat := 1000

  /** The cache key: `text.toLowerCase().trim()`. */
  function Key(text: string): string
  {
    Trim(ToLower(text))
  }

  /** Inputs that differ only in letter case share one cache entry. */
  lemma KeyIgnoresCase(text: string)
    ensures Key(ToLower(text)) == Key(text)
  {
    assert ToLower(ToLower(text)) == ToLower(text);
  }

  /** Inputs that differ only in surrounding whitespace share one cache entry. */
  lemma KeyIgnoresPadding(pre: string, text: string, suf: string)
    requires forall i :: 0 <= i < |pre| ==> IsSpace(pre[i])
    requires forall i :: 0 <= i < |suf| ==> IsSpace(suf[i])
    ensures Key(pre + text + suf) == Key(text)
  {
    assert ToLower(pre + text + suf) == ToLower(pre) + ToLower(text) + ToLower(suf);
    TrimPadding(ToLower(pre), ToLower(text), ToLower(suf));
  }

  /**
   * The cache as a JavaScript `Map`: the keys in insertion order, and the
   * entries.
   */
  datatype CacheState = CacheState(order: seq<string>, entries: map<string, string>)

  predicate Distinct(s: seq<string>)
  {
    forall i, j :: 0 <= i < j < |s| ==> s[i] != s[j]
  }

  /** Every entry's key is listed once, and there are at most 1000 of them. */
  ghost predicate CacheValid(c: CacheState)
  {
    && Distinct(c.order)
    && (forall k :: k in c.entries <==> k in c.order)
    && |c.order| <= CacheLimit
  }

  /** `getCachedResponse(text)`: the entry under the normalised key, if any. */
  function Lookup(c: CacheState, text: string): (r: Option<string>)
    ensures r.Some? <==> Key(text) in c.entries
    ensures r.Some? ==> r.value == c.entries[Key(text)]
  {
    if Key(text) in c.entries then Some(c.entries[Key(text)]) else None
  }

  /** `if (cachedResponse)`: an entry that is present and not the empty string. */
  predicate Hit(r: Option<string>)
  {
    r.Some? && r.value != ""
  }

  /** A full cache drops its earliest-inserted key; otherwise it is unchanged. */
  function Evicted(c: CacheState): CacheState
  {
    if |c.order| >= CacheLimit then CacheState(c.order[1..], c.entries - {c.order[0]}) else c
  }

  /**
   * `setCachedResponse(text, response)`: eviction first when the cache is
   * full, then a `Map.set`, which keeps the position of a key still present
   * and appends a new one.
   */
  function Put(c: CacheState, text: string, response: string): (r: CacheState)
    ensures Key(text) in r.entries && r.entries[Key(text)] == response
    ensures forall k :: k in r.entries && k != Key(text) ==> k in c.entries && r.entries[k] == c.entries[k]
    ensures |c.order| < CacheLimit ==> forall k :: k in c.entries ==> k in r.entries
    ensures |c.order| >= CacheLimit ==> c.order[0] !in r.entries || c.order[0] == Key(text)
    ensures |c.order| >= CacheLimit ==> forall k :: k in c.entries && k != c.order[0] ==> k in r.entries
    ensures |c.order| < CacheLimit ==> r.order == c.order + (if Key(text) in c.entries then [] else [Key(text)])
    ensures |c.order| >= CacheLimit ==>
              r.order == c.order[1..] + (if Key(text) in c.entries && Key(text) != c.order[0] then [] else [Key(text)])
  {
    var key := Key(text);
    var d := Evicted(c);
    if key in d.entries then CacheState(d.order, d.entries[key := response])
    else CacheState(d.order + [key], d.entries[key := response])
  }

  lemma EvictedValid(c: CacheState)
    requires CacheValid(c)
    ensures CacheValid(Evicted(c))
    ensures |Evicted(c).order| < CacheLimit
  {
    if |c.order| >= CacheLimit {
      var d := Evicted(c);
      forall k ensures k in d.entries <==> k in d.order {
        if k in d.order {
          var j :| 0 <= j < |d.order| && d.order[j] == k;
          assert c.order[j + 1] == k;
        }
        if k in c.order && k != c.order[0] {
          var j :| 0 <= j < |c.order| && c.order[j] == k;
          assert d.order[j - 1] == k;
        }
      }
    }
  }

  /** The cache never holds more than 1000 entries and stays well formed. */
  lemma PutValid(c: CacheState, text: string, response: string)
    requires CacheValid(c)
    ensures CacheValid(Put(c, text, response))
  {
    EvictedValid(c);
    var d := Evicted(c);
    var key := Key(text);
    if key !in d.entries {
      var o := d.order + [key];
      forall i, j | 0 <= i < j < |o| ensures o[i] != o[j] {
        if j == |o| - 1 {
          assert o[i] == d.order[i];
        }
      }
    }
  }

  /** A reply just stored is what a lookup of any text with the same key returns. */
  lemma PutThenLookup(c: CacheState, text: string, other: string, response: string)
    requires Key(other) == Key(text)
    ensures Lookup(Put(c, text, response), other) == Some(response)
  {
  }

  /** Below the limit, overwriting an existing key keeps its insertion position. */
  lemma PutKeepsPosition(c: CacheState, text: string, response: string)
    requires CacheValid(c) && |c.order| < CacheLimit && Key(text) in c.entries
    ensures Put(c, text, response).order == c.order
  {
  }

  /**
   * At the limit, the earliest key is evicted even when it is the key being
   * set, which then moves to the end of the insertion order.
   */
  lemma PutEvictsEvenExistingKey(c: CacheState, text: string, response: string)
    requires CacheValid(c) && |c.order| == CacheLimit && c.order[0] == Key(text)
    ensures Put(c, text, response).order == c.order[1..] + [Key(text)]
    ensures |Put(c, text, response).order| == CacheLimit
  {
    var d := Evicted(c);
    assert Key(text) !in d.entries;
  }

  // -------------------------------------------------------------- context

  /** A document row as the session query loads it. */
  datatype DocumentView = DocumentView(id: nat, contentText: Option<string>)

  /** Each string followed by `sep`, as the accumulation loops build it. */
  function Terminated(ts: seq<string>, sep: string): string
  {
    if ts == [] then "" else Terminated(ts[..|ts| - 1], sep) + ts[|ts| - 1] + sep
  }

  /** The terminated text is the plain `join` plus one final separator. */
  lemma {:induction false} TerminatedJoin(ts: seq<string>, sep: string)
    requires ts != []
    ensures Terminated(ts, sep) == Join(ts, sep) + sep
  {
    var n := |ts|;
    if n > 1 {
      var init := ts[..n - 1];
      TerminatedJoin(init, sep);
      assert ts == init + [ts[n - 1]];
      JoinAppend(init, [ts[n - 1]], sep);
    }
  }

  /** The truthy `content_text` values, in document order. */
  function TruthyContents(documents: seq<DocumentView>): (r: seq<string>)
    ensures |r| <= |documents|
    ensures forall k :: 0 <= k < |r| ==> r[k] != ""
  {
    if documents == [] then []
    else
      var d := documents[|documents| - 1];
      TruthyContents(documents[..|documents| - 1])
        + (if d.contentText.Some? && d.contentText.value != "" then [d.contentText.value] else [])
  }

  /** `str.substring(0, n)`: at most the first `n` characters. */
  function Prefix(s: string, n: nat): (r: string)
    ensures |r| == Min(|s|, n) && r == s[..|r|]
  {
    if |s| <= n then s else s[..n]
  }

  const ChunkContextLimit: nat := 3000
  const FallbackContextLimit: nat := 2000

  /**
   * What `getRelevantContext` returns: "" without documents; the retrieved
   * chunk texts, each followed by a blank line, cut at 3000 characters;
   * or, when retrieval failed, the truthy document texts, each followed by
   * a newline, cut at 2000 characters.
   */
  function RelevantContext(documents: seq<DocumentView>, retrieval: Result<seq<string>, string>): string
  {
    if documents == [] then ""
    else if retrieval.Ok? then Prefix(Terminated(retrieval.value, "\n\n"), ChunkContextLimit)
    else Prefix(Terminated(TruthyContents(documents), "\n"), FallbackContextLimit)
  }

  /** The context is a prefix of the full accumulated text, within its limit, and whole when that fits. */
  lemma ContextBounds(documents: seq<DocumentView>, retrieval: Result<seq<string>, string>)
    requires documents != []
    ensures var full := if retrieval.Ok? then Terminated(retrieval.value, "\n\n") else Terminated(TruthyContents(documents), "\n");
            var limit := if retrieval.Ok? then ChunkContextLimit else FallbackContextLimit;
            var c := RelevantContext(documents, retrieval);
            && |c| <= limit
            && c == full[..|c|]
            && (|full| <= limit ==> c == full)
  {
  }

  /**
   * `getRelevantContext(userMessage, documents)`. `retrieval` is what the
   * query embedding and the similarity search over the documents' ids
   * produce: the matching chunk texts, or the error that sends the
   * function to its fallback.
   */
  method GetRelevantContext(documents: seq<DocumentView>, retrieval: Result<seq<string>, string>)
    returns (context: string)
    ensures context == RelevantContext(documents, retrieval)
  {
    if |documents| == 0 {
      return "";
    }
    if retrieval.Ok? {
      var chunks := retrieval.value;
      var text := "";
      for i := 0 to |chunks|
        invariant text == Terminated(chunks[..i], "\n\n")
      {
        assert chunks[..i + 1][..i] == chunks[..i];
        text := text + chunks[i] + "\n\n";
      }
      assert chunks[..|chunks|] == chunks;
      return Prefix(text, ChunkContextLimit);
    }
    var fallback := "";
    for i := 0 to |documents|
      invariant fallback == Terminated(TruthyContents(documents[..i]), "\n")
    {
      assert documents[..i + 1][..i] == documents[..i];
      var d := documents[i];
      if d.contentText.Some? && d.contentText.value != "" {
        var before := TruthyContents(documents[..i]);
        assert TruthyContents(documents[..i + 1]) == before + [d.contentText.value];
        assert (before + [d.contentText.value])[..|before|] == before;
        fallback := fallback + d.contentText.value + "\n";
      } else {
        assert TruthyContents(documents[..i + 1]) == TruthyContents(documents[..i]);
      }
    }
    assert documents[..|documents|] == documents;
    return Prefix(fallback, FallbackContextLimit);
  }

  // ------------------------------------------------------------- messages

  datatype Role = SystemRole | UserRole

  datatype ChatMessage = ChatMessage(role: Role, content: string)

  /** A chat completion request; the sampling parameters besides `max_tokens` are left out. */
  datatype ChatRequest = ChatRequest(model: string, messages: seq<ChatMessage>, maxTokens: nat)

  /** The parts of a completion the backend reads. */
  datatype Completion = Completion(content: string, promptTokens: nat, completionTokens: nat)

  const Gpt35: string := "gpt-3.5-turbo"
  const Gpt4oMini: string := "gpt-4o-mini"

  const DefaultSystemPrompt: string :=
    "You are an AI assistant. Be concise, accurate, and provide answers based only on the provided context. Keep responses clear. Answer according to the information given, regardless of topic"
  const ContextPreamble: string := "Here is the relevant context from the documents:\n\n"
  const FastSystemPrompt: string :=
    "Give complete answers in 2-3 short sentences. Never cut off mid-sentence. Always finish your response properly. Be direct and concise."

  const ErrorApology: string := "I'm sorry, I encountered an error while processing your request."
  const AiApology: string := "I'm sorry, I'm having trouble generating a response right now. Please try again."

  /**
   * The message list `generateResponseWithAI` sends: the agent prompt (or
   * the default when it is missing or empty) as a system message, then the
   * context as a second system message only when it is not blank, and the
   * user's message last.
   */
  function ChatMessages(userMessage: string, context: string, systemPrompt: Option<string>): (ms: seq<ChatMessage>)
    ensures |ms| == (if IsBlank(context) then 2 else 3)
    ensures ms[0] == ChatMessage(SystemRole, if systemPrompt.Some? && systemPrompt.value != "" then systemPrompt.value else DefaultSystemPrompt)
    ensures !IsBlank(context) ==> ms[1] == ChatMessage(SystemRole, ContextPreamble + context)
    ensures ms[|ms| - 1] == ChatMessage(UserRole, userMessage)
    ensures forall k :: 0 <= k < |ms| - 1 ==> ms[k].role == SystemRole
  {
    var prompt := if systemPrompt.Some? && systemPrompt.value != "" then systemPrompt.value else DefaultSystemPrompt;
    [ChatMessage(SystemRole, prompt)]
      + (if IsBlank(context) then [] else [ChatMessage(SystemRole, ContextPreamble + context)])
      + [ChatMessage(UserRole, userMessage)]
  }

  /** The request `generateBotResponse` makes: its context argument is always "". */
  function BotRequest(userMessage: string, systemPrompt: Option<string>): ChatRequest
  {
    ChatRequest(Gpt35, ChatMessages(userMessage, "", systemPrompt), 150)
  }

  /** The request `generateFastLLMResponse` makes. */
  function FastRequest(userText: string): ChatRequest
  {
    ChatRequest(Gpt4oMini, [ChatMessage(SystemRole, FastSystemPrompt), ChatMessage(UserRole, userText)], 120)
  }

  /** The slow path never shows the model any retrieved context: just the prompt and the question. */
  lemma BotRequestHasNoContext(userMessage: string, systemPrompt: Option<string>)
    ensures |BotRequest(userMessage, systemPrompt).messages| == 2
    ensures BotRequest(userMessage, systemPrompt).messages[1] == ChatMessage(UserRole, userMessage)
  {
    assert IsBlank("");
  }

  /** What `generateResponseWithAI` returns for a completion outcome. */
  function ReplyOf(outcome: Result<Completion, string>): (r: string)
    ensures outcome.Ok? ==> r == outcome.value.content
    ensures outcome.Err? ==> r == AiApology
  {
    if outcome.Ok? then outcome.value.content else AiApology
  }

  /** `combineResponse(contextResults, llmResponse)`: the model output, never the context. */
  function CombineResponse(contextResults: string, llmResponse: string): (r: string)
    ensures r == llmResponse
  {
    llmResponse
  }

  // ---------------------------------------------------------- the ledger

  /** The parts of the ledger the reply flows change. */
  datatype LedgerView = LedgerView(current: Option<Accumulator>, logs: seq<LogRecord>)

  /** One chat call: the model asked and what came back. */
  datatype Call = Call(model: string, outcome: Result<Completion, string>)

  /** A successful call is charged to the tracked session, if there is one; a failed one is not. */
  function AfterCall(v: LedgerView, call: Call, now: int): LedgerView
  {
    if call.outcome.Ok? && v.current.Some? then
      var c := call.outcome.value;
      var e := UsageEntry(now, v.current.value.sessionId, "llm", call.model, c.promptTokens, c.completionTokens,
                          CalculateCost(call.model, c.promptTokens, c.completionTokens));
      LedgerView(Some(Record(v.current.value, e)), v.logs + [Usage(e)])
    else v
  }

  /** The ledger after a sequence of calls, in order. */
  function AfterCalls(v: LedgerView, calls: seq<Call>, now: int): LedgerView
    decreases |calls|
  {
    if calls == [] then v else AfterCalls(AfterCall(v, calls[0], now), calls[1..], now)
  }

  /** Without a tracked session, no call leaves a trace in the ledger. */
  lemma {:induction false} UntrackedCallsLogNothing(v: LedgerView, calls: seq<Call>, now: int)
    requires v.current.None?
    ensures AfterCalls(v, calls, now) == v
    decreases |calls|
  {
    if calls != [] {
      UntrackedCallsLogNothing(AfterCall(v, calls[0], now), calls[1..], now);
    }
  }

  /** With a tracked session, each successful call adds exactly one buffered entry. */
  lemma {:induction false} CallsLogOnePerSuccess(v: LedgerView, calls: seq<Call>, now: int)
    requires v.current.Some?
    ensures AfterCalls(v, calls, now).current.Some?
    ensures |AfterCalls(v, calls, now).logs| == |v.logs| + Successes(calls)
    decreases |calls|
  {
    if calls != [] {
      CallsLogOnePerSuccess(AfterCall(v, calls[0], now), calls[1..], now);
    }
  }

  function Successes(calls: seq<Call>): nat
  {
    if calls == [] then 0 else (if calls[0].outcome.Ok? then 1 else 0) + Successes(calls[1..])
  }

  // -------------------------------------------------------- reply flows

  /** The session as the reply flows load it: its agent, if any, with prompt and documents. */
  datatype AgentView = AgentView(prompt: Option<string>, documents: seq<DocumentView>)
  datatype SessionView = SessionView(agent: Option<AgentView>)

  /** The session exists and has an agent (otherwise the flow throws and apologises). */
  predicate Usable(session: Option<SessionView>)
  {
    session.Some? && session.value.agent.Some?
  }

  /**
   * `searchContext(userText, sessionId)`: "" when the session or its agent
   * is missing, otherwise the session's relevant context; never longer
   * than the chunk context limit.
   */
  method SearchContext(session: Option<SessionView>, retrieval: Result<seq<string>, string>)
    returns (context: string)
    ensures !Usable(session) ==> context == ""
    ensures Usable(session) ==> context == RelevantContext(session.value.agent.value.documents, retrieval)
    ensures |context| <= ChunkContextLimit
  {
    if !Usable(session) {
      return "";
    }
    var documents := session.value.agent.value.documents;
    context := GetRelevantContext(documents, retrieval);
    if documents != [] {
      ContextBounds(documents, retrieval);
    }
  }

  /** What one reply flow produces: the reply, the cache afterwards, and the chat calls it made. */
  datatype Turn = Turn(reply: string, cache: CacheState, calls: seq<Call>)

  /** `generateBotResponse`. */
  function BotTurn(c: CacheState, userMessage: string, session: Option<SessionView>,
                   chat: ChatRequest -> Result<Completion, string>): Turn
  {
    var hit := Lookup(c, userMessage);
    if Hit(hit) then Turn(hit.value, c, [])
    else if !Usable(session) then Turn(ErrorApology, c, [])
    else
      var outcome := chat(BotRequest(userMessage, session.value.agent.value.prompt));
      var reply := ReplyOf(outcome);
      Turn(reply, Put(c, userMessage, reply), [Call(Gpt35, outcome)])
  }

  /** `generateBotResponseOptimized`: the fast model, or `generateBotResponse` when it fails. */
  function OptimizedTurn(c: CacheState, userText: string, session: Option<SessionView>,
                         chat: ChatRequest -> Result<Completion, string>): Turn
  {
    var fast := chat(FastRequest(userText));
    if fast.Ok? then Turn(CombineResponse("", fast.value.content), c, [Call(Gpt4oMini, fast)])
    else
      var t := BotTurn(c, userText, session, chat);
      Turn(t.reply, t.cache, [Call(Gpt4oMini, fast)] + t.calls)
  }

  /** `generateUltraFastResponse`: a cache hit, or the optimized reply, which is then cached. */
  function UltraFastTurn(c: CacheState, userText: string, session: Option<SessionView>,
                         chat: ChatRequest -> Result<Completion, string>): Turn
  {
    var hit := Lookup(c, userText);
    if Hit(hit) then Turn(hit.value, c, [])
    else
      var t := OptimizedTurn(c, userText, session, chat);
      Turn(t.reply, Put(t.cache, userText, t.reply), t.calls)
  }

  /** A non-empty cached reply is returned as is: no model call and no cache change, on either path. */
  lemma CachedReplyShortCircuits(c: CacheState, text: string, session: Option<SessionView>,
                                 chat: ChatRequest -> Result<Completion, string>)
    requires Hit(Lookup(c, text))
    ensures BotTurn(c, text, session, chat) == Turn(c.entries[Key(text)], c, [])
    ensures UltraFastTurn(c, text, session, chat) == Turn(c.entries[Key(text)], c, [])
  {
  }

  /** `generateBotResponse` always produces a reply: the cached one, an apology, or the model's text. */
  lemma BotReplyCases(c: CacheState, text: string, session: Option<SessionView>,
                      chat: ChatRequest -> Result<Completion, string>)
    ensures var t := BotTurn(c, text, session, chat);
            || (Hit(Lookup(c, text)) && t.reply == c.entries[Key(text)])
            || (!Usable(session) && t.reply == ErrorApology && t.calls == [])
            || (chat(BotRequest(text, session.value.agent.value.prompt)).Err? && t.reply == AiApology)
            || t.reply == chat(BotRequest(text, session.value.agent.value.prompt)).value.content
  {
  }

  /**
   * Without a cache hit, the ultra-fast reply is exactly the fast model's
   * output when that call succeeds, and the reply returned is the one left
   * in the cache under the text's key.
   */
  lemma UltraFastReply(c: CacheState, text: string, session: Option<SessionView>,
                       chat: ChatRequest -> Result<Completion, string>)
    requires CacheValid(c) && !Hit(Lookup(c, text))
    ensures var t := UltraFastTurn(c, text, session, chat);
            && (chat(FastRequest(text)).Ok? ==> t.reply == chat(FastRequest(text)).value.content && t.calls == [Call(Gpt4oMini, chat(FastRequest(text)))])
            && Lookup(t.cache, text) == Some(t.reply)
            && CacheValid(t.cache)
  {
    var fast := chat(FastRequest(text));
    if fast.Err? {
      var b := BotTurn(c, text, session, chat);
      if Usable(session) {
        PutValid(c, text, b.reply);
      }
      PutValid(b.cache, text, b.reply);
    } else {
      PutValid(c, text, fast.value.content);
    }
  }

  /** The slow model is asked only after the fast one failed, and then at most once. */
  lemma FallbackOnlyAfterFastFailure(c: CacheState, text: string, session: Option<SessionView>,
                                     chat: ChatRequest -> Result<Completion, string>)
    requires !Hit(Lookup(c, text))
    ensures var t := UltraFastTurn(c, text, session, chat);
            && 1 <= |t.calls| <= 2
            && t.calls[0].model == Gpt4oMini
            && (|t.calls| == 2 <==> chat(FastRequest(text)).Err? && Usable(session))
            && (|t.calls| == 2 ==> t.calls[1].model == Gpt35)
  {
  }

  /**
   * The reply service: the response cache, which `setCachedResponse`
   * updates in place, and the shared usage ledger.
   */
  class ReplyService {
    var order: seq<string>
    var entries: map<string, string>
    const ledger: Ledger

    function Cache(): CacheState
      reads this
    {
      CacheState(order, entries)
    }

    function View(): LedgerView
      reads ledger
    {
      LedgerView(ledger.current, ledger.logs)
    }

    ghost predicate Valid()
      reads this, ledger
    {
      CacheValid(Cache()) && ledger.Valid()
    }

    constructor (ledger: Ledger)
      requires ledger.Valid()
      ensures Valid()
      ensures Cache() == CacheState([], map[]) && this.ledger == ledger
    {
      order := [];
      entries := map[];
      this.ledger := ledger;
    }

    /** `setCachedResponse`: delete the first key when full, then set. */
    method SetCachedResponse(text: string, response: string)
      requires Valid()
      modifies this
      ensures Valid()
      ensures Cache() == Put(old(Cache()), text, response)
    {
      PutValid(Cache(), text, response);
      var key := Key(text);
      if |order| >= CacheLimit {
        var first := order[0];
        entries := entries - {first};
        order := order[1..];
      }
      if key !in entries {
        order := order + [key];
      }
      entries := entries[key := response];
    }

    /**
     * `generateResponseWithAI(userMessage, context, systemPrompt)`: never
     * fails; charges a successful call to the tracked session.
     */
    method GenerateResponseWithAI(userMessage: string, context: string, systemPrompt: Option<string>,
                                  chat: ChatRequest -> Result<Completion, string>, now: int)
      returns (reply: string)
      requires ledger.Valid()
      modifies ledger
      ensures ledger.Valid()
      ensures var outcome := chat(ChatRequest(Gpt35, ChatMessages(userMessage, context, systemPrompt), 150));
              && reply == ReplyOf(outcome)
              && View() == AfterCall(old(View()), Call(Gpt35, outcome), now)
      ensures ledger.savePending == old(ledger.savePending) && ledger.logFile == old(ledger.logFile)
    {
      var outcome := chat(ChatRequest(Gpt35, ChatMessages(userMessage, context, systemPrompt), 150));
      if outcome.Err? {
        return AiApology;
      }
      var c := outcome.value;
      var cost := CalculateCost(Gpt35, c.promptTokens, c.completionTokens);
      if ledger.current.Some? {
        ledger.LogModelUsage("llm", Gpt35, c.promptTokens, c.completionTokens, cost, now);
      }
      reply := c.content;
    }

    /** `generateFastLLMResponse`: like the above with the fast model, but a failure is passed on. */
    method GenerateFastLLMResponse(userText: string, chat: ChatRequest -> Result<Completion, string>, now: int)
      returns (r: Result<string, string>)
      requires ledger.Valid()
      modifies ledger
      ensures ledger.Valid()
      ensures var outcome := chat(FastRequest(userText));
              && (outcome.Ok? ==> r == Ok(outcome.value.content))
              && (outcome.Err? ==> r == Err(outcome.error))
              && View() == AfterCall(old(View()), Call(Gpt4oMini, outcome), now)
      ensures ledger.savePending == old(ledger.savePending) && ledger.logFile == old(ledger.logFile)
    {
      var outcome := chat(FastRequest(userText));
      if outcome.Err? {
        return Err(outcome.error);
      }
      var c := outcome.value;
      var cost := CalculateCost(Gpt4oMini, c.promptTokens, c.completionTokens);
      if ledger.current.Some? {
        ledger.LogModelUsage("llm", Gpt4oMini, c.promptTokens, c.completionTokens, cost, now);
      }
      r := Ok(c.content);
    }

    /**
     * `generateBotResponse(sessionId, userMessage)`; `session` is what the
     * session query with its agent and documents returns (None when it is
     * missing or the query fails), `retrieval` the search outcome.
     */
    method GenerateBotResponse(userMessage: string, session: Option<SessionView>,
                               retrieval: Result<seq<string>, string>,
                               chat: ChatRequest -> Result<Completion, string>, now: int)
      returns (reply: string)
      requires Valid()
      modifies this, ledger
      ensures Valid()
      ensures var t := BotTurn(old(Cache()), userMessage, session, chat);
              && reply == t.reply
              && Cache() == t.cache
              && View() == AfterCalls(old(View()), t.calls, now)
      ensures ledger.savePending == old(ledger.savePending) && ledger.logFile == old(ledger.logFile)
    {
      var cached := Lookup(Cache(), userMessage);
      if Hit(cached) {
        return cached.value;
      }
      if !Usable(session) {
        return ErrorApology;
      }
      var agent := session.value.agent.value;
      var context := GetRelevantContext(agent.documents, retrieval);
      reply := GenerateResponseWithAI(userMessage, "", agent.prompt, chat, now);
      SetCachedResponse(userMessage, reply);
    }

    /** `generateBotResponseOptimized`: the search result is discarded by `combineResponse`. */
    method GenerateBotResponseOptimized(userText: string, session: Option<SessionView>,
                                        retrieval: Result<seq<string>, string>,
                                        chat: ChatRequest -> Result<Completion, string>, now: int)
      returns (reply: string)
      requires Valid()
      modifies this, ledger
      ensures Valid()
      ensures var t := OptimizedTurn(old(Cache()), userText, session, chat);
              && reply == t.reply
              && Cache() == t.cache
              && View() == AfterCalls(old(View()), t.calls, now)
      ensures ledger.savePending == old(ledger.savePending) && ledger.logFile == old(ledger.logFile)
    {
      var contextResults := SearchContext(session, retrieval);
      var fast := GenerateFastLLMResponse(userText, chat, now);
      if fast.Ok? {
        reply := CombineResponse(contextResults, fast.value);
        return;
      }
      ghost var afterFast := View();
      reply := GenerateBotResponse(userText, session, retrieval, chat, now);
      ghost var t := BotTurn(old(Cache()), userText, session, chat);
      assert AfterCalls(old(View()), [Call(Gpt4oMini, chat(FastRequest(userText)))] + t.calls, now)
          == AfterCalls(afterFast, t.calls, now) by {
        var calls := [Call(Gpt4oMini, chat(FastRequest(userText)))] + t.calls;
        assert calls[1..] == t.calls;
      }
    }

    /** `generateUltraFastResponse`. */
    method GenerateUltraFastResponse(userText: string, session: Option<SessionView>,
                                     retrieval: Result<seq<string>, string>,
                                     chat: ChatRequest -> Result<Completion, string>, now: int)
      returns (reply: string)
      requires Valid()
      modifies this, ledger
      ensures Valid()
      ensures var t := UltraFastTurn(old(Cache()), userText, session, chat);
              && reply == t.reply
              && Cache() == t.cache
              && View() == AfterCalls(old(View()), t.calls, now)
      ensures ledger.savePending == old(ledger.savePending) && ledger.logFile == old(ledger.logFile)
    {
      var cached := Lookup(Cache(), userText);
      if Hit(cached) {
        return cached.value;
      }
      reply := GenerateBotResponseOptimized(userText, session, retrieval, chat, now);
      SetCachedResponse(userText, reply);
    }
  }
}
