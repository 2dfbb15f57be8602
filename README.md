# Voice RAG chatbot backend — a Dafny model

This project models the core of a voice-enabled retrieval-augmented
chatbot backend written in JavaScript (Node/Express, a WebSocket voice
channel, OpenAI speech, transcription and chat endpoints, a vector index
and a relational store). It models:

- **Voice channel.** The per-connection client records of the
  WebSocket voice service, and its message dispatch (start session,
  audio chunk, stop recording, ping). It also models the audio turn:
  chunks are transcribed, the transcription is accumulated, and a reply
  is generated and spoken, with the retry fallback. The model covers
  the performance statistics, the client clean-up and the idle sweep.
- **Speech helpers.** The 15-word text chunker for parallel
  text-to-speech and the index-ordered reassembly of its results. Also
  the validation of streamed microphone audio, the speech-to-text input
  dispatch, and the 44-byte WAV header writer.
- **Reply service.** The response cache, with its lower-cased, trimmed
  keys and first-inserted eviction at 1000 entries. Also the retrieval
  context assembly and the plain, optimised, fast and ultra-fast reply
  flows, with their usage logging.
- **Usage ledger.** Per-model prices, cost computation, the session
  accumulator, the buffered log, and saving to and reading from the
  day's log file.
- **Record services.** Users, sessions (at most one open per agent), messages with their optional audio and bot reply, and agents
  with their document processing. The document chunker is a
  sentence-aware sliding window of 1000 characters with a 200-character
  overlap.
- **Small modules.** The upload file filter, with the extension
  semantics of Node's `path.extname`. The API error and response
  records. The front-end user slice over local storage.

Everything that talks to the outside world is a parameter. This covers
the OpenAI endpoints, the vector index, the file system outcomes, the
clock readings, generated identifiers and the order in which parallel
requests settle. The database is a class holding one sequence per
table, and a row's identifier is its index.

Modules, one file each: `Common`, `Text` (the JavaScript string built-ins
the code relies on: `trim`, `split(/\s+/)`, `replace(/\s+/g, " ")`,
`join`, `toLowerCase`, `lastIndexOf`), `ApiRecords`, `UploadFilter`,
`UserSlice`, `Wav`, `AudioService`, `UsageLedger`, `AiService`, `Store`,
`UserService`, `SessionService`, `MessageService`, `AgentService`,
`VoiceService`.

## Model

| member | source | states |
|---|---|---|
| Common.NatToString | Backend/util/audioService.js:296 | decimal rendering of a timestamp: at least one character, all digits |
| Common.NatToStringRoundTrip | Backend/util/audioService.js:296 | the rendered digits read back as the number, so distinct timestamps give distinct file names |
| Common.FlattenLength | Backend/util/audioService.js:285 | the length of a concatenation of buffers is the sum of their lengths |
| Common.FlattenAppend | Backend/util/audioService.js:285 | concatenating two lists of buffers is concatenating their concatenations |
| Text.TrimStart | Backend/service/agentService.js:147 | what is left after leading whitespace: no longer, starts with a non-space or is empty |
| Text.TrimStartSuffix | Backend/service/agentService.js:147 | left trimming keeps a suffix of the string |
| Text.TrimEnd | Backend/service/agentService.js:147 | right trimming keeps a prefix that does not end in whitespace |
| Text.Trim | Backend/service/agentService.js:147 | `trim()` yields a string with no whitespace at either end, never longer |
| Text.BlankIffAllSpace | Backend/service/agentService.js:83 | a string trims to empty exactly when every character is whitespace |
| Text.TrimPadding | Backend/util/aiService.js:21 | `trim()` ignores any whitespace added on either side |
| Text.TrimOfUnpadded | Backend/service/agentService.js:175 | trimming an unpadded string changes nothing |
| Text.SplitWs | Backend/util/audioService.js:183 | `split(/\s+/)` always returns at least one token |
| Text.SplitWsTokenized | Backend/util/audioService.js:213 | split tokens are whitespace-free and only the first and last can be empty |
| Text.WordsEmptyIffBlank | Backend/util/audioService.js:213 | a text has no non-empty tokens exactly when it is blank |
| Text.JoinAppend | Backend/util/audioService.js:218 | `join` of two non-empty lists is the two joins around one separator |
| Text.SplitJoinRoundTrip | Backend/util/audioService.js:213-218 | splitting words joined by single spaces gives back the words |
| Text.WordsOfJoin | Backend/util/audioService.js:213-218 | the non-empty tokens of joined words are those words |
| Text.TrimJoinTokens | Backend/util/audioService.js:218-221 | trimming a group of split tokens joined by spaces equals joining its non-empty tokens |
| Text.CollapseWs | Backend/service/agentService.js:147 | `replace(/\s+/g, " ")` never lengthens the text |
| Text.CollapseWsShape | Backend/service/agentService.js:147 | the collapsed text is single-spaced, empty only for empty input, and starts with a space exactly when the input does |
| Text.CollapseKeepsSplit | Backend/service/agentService.js:147 | collapsing whitespace does not change the text's `split(/\s+/)` tokens |
| Text.ToLower | Backend/util/uploadFiles.js:50 | lower-casing keeps the length and maps each character on its own |
| Text.TrimLowerCommute | Backend/util/aiService.js:21 | lower-casing then trimming equals trimming then lower-casing |
| Text.LastIndexOf | Backend/util/uploadFiles.js:50 | `lastIndexOf`: -1 or an index holding the character, with no occurrence after it |
| ApiRecords.NewApiError | Backend/util/ApiError.js:2-20 | status kept, message defaults to "Something went Wrong", errors to empty, never a success and no data |
| ApiRecords.Fail | Backend/util/ApiError.js:2-20 | an error with a message and no error list |
| ApiRecords.NewApiResponse | Backend/util/ApiResponse.js:2-7 | success exactly when status < 400; message defaults to "Success" |
| UserSlice.AuthSlice.constructor | Frontend/src/redux/slices/User.js:4-7 | initial state: user from storage, token present only when the stored token is non-empty |
| UserSlice.AuthSlice.SetUser | Frontend/src/redux/slices/User.js:13-19 | user replaced; token and storage updated only for a truthy token, otherwise both kept |
| UserSlice.AuthSlice.Logout | Frontend/src/redux/slices/User.js:20-24 | user and token cleared and the access key removed from storage, nothing else |
| UserSlice.SetUserThenReload | Frontend/src/redux/slices/User.js:13-19 | a token set by `setUser` is what the next load reads back |
| UserSlice.LogoutThenReload | Frontend/src/redux/slices/User.js:20-24 | after logout the next load finds no token |
| UploadFilter.LastComponent | Backend/util/uploadFiles.js:50 | the last path component contains no `/` |
| UploadFilter.BaseName | Backend/util/uploadFiles.js:50 | `basename` after dropping trailing slashes has no `/` |
| UploadFilter.Extname | Backend/util/uploadFiles.js:50 | `path.extname`: empty, or a dot-led suffix of the base name with no further dot; empty exactly when the base name has no dot after its first character or is ".." |
| UploadFilter.LastIndexOfLast | Backend/util/uploadFiles.js:50 | the last occurrence of a character is the one after which it no longer appears |
| UploadFilter.ExtnameOfName | Backend/util/uploadFiles.js:50 | a name `stem.ext` has extension `.ext` |
| UploadFilter.ExtnameLower | Backend/util/uploadFiles.js:50 | the extension of the lower-cased name is the lower-cased extension |
| UploadFilter.FileFilter | Backend/util/uploadFiles.js:17-67 | accepted exactly when the mimetype or the lower-cased extension is on its list; a rejection names the mimetype and the allowed types |
| UploadFilter.MimetypeSuffices | Backend/util/uploadFiles.js:52-56 | an allowed mimetype is accepted whatever the name |
| UploadFilter.ExtensionSuffices | Backend/util/uploadFiles.js:50-56 | an allowed extension is accepted whatever the mimetype |
| UploadFilter.UpperCaseExtensionAccepted | Backend/util/uploadFiles.js:50 | "REPORT.PDF" with an unknown mimetype is accepted |
| UploadFilter.FilterIgnoresNameCase | Backend/util/uploadFiles.js:50-56 | the verdict does not depend on the case of the file name |
| Wav.U32LE | Backend/util/audioConverter.js:53 | a 32-bit little-endian field is four bytes |
| Wav.U32RoundTrip | Backend/util/audioConverter.js:53 | a written 32-bit field reads back as its value |
| Wav.U16RoundTrip | Backend/util/audioConverter.js:59 | a written 16-bit field reads back as its value |
| Wav.WavHeader | Backend/util/audioConverter.js:49-68 | the header is 44 bytes |
| Wav.HeaderLayout | Backend/util/audioConverter.js:40-68 | RIFF/WAVE/fmt/data tags at their offsets; file size 36 + n; PCM, mono, 16 kHz, byte rate 32000, block align 2, 16 bits; data size n |
| Wav.WriteBytes | Backend/util/audioConverter.js:52-68 | a write changes exactly the bytes at its offset |
| Wav.WriteRiffChunk | Backend/util/audioConverter.js:51-54 | the first 12 bytes are the RIFF chunk |
| Wav.WriteFmtChunk | Backend/util/audioConverter.js:56-64 | bytes 12..36 are the fmt chunk, the RIFF chunk kept |
| Wav.WriteDataChunkHeader | Backend/util/audioConverter.js:66-68 | bytes 36..44 are the data chunk header, the rest kept |
| Wav.CreateWavFromPcm | Backend/util/audioConverter.js:39-74 | the file is the header followed by the PCM bytes unchanged; a size beyond 32 bits is an error |
| Wav.ConvertAudioToWav | Backend/util/audioConverter.js:5-36 | a buffer starting with "RIFF" passes through, other buffers and typed arrays are wrapped, other inputs are an error |
| Wav.RiffPassesThrough | Backend/util/audioConverter.js:10-15 | a WAV buffer is returned unchanged |
| Wav.ConvertIdempotent | Backend/util/audioConverter.js:5-36 | converting a converted buffer changes nothing |
| Wav.ValidateAudioBuffer | Backend/util/audioConverter.js:77-87 | valid exactly at 2048 bytes or more; empty and short buffers give their two messages |
| AudioService.ChunksWellFormed | Backend/util/audioService.js:216-223 | every chunk is one to 15 words joined by single spaces |
| AudioService.ChunksKeepWords | Backend/util/audioService.js:216-223 | the chunks carry exactly the non-empty tokens, in order |
| AudioService.ChunksEmptyIff | Backend/util/audioService.js:216-223 | no chunks exactly when there are no non-empty tokens |
| AudioService.ChunksJoin | Backend/util/audioService.js:216-223 | the chunks joined by spaces are the words joined by spaces |
| AudioService.ChunkCount | Backend/util/audioService.js:216-223 | at most one chunk per 15 tokens |
| AudioService.DynamicChunksSound | Backend/util/audioService.js:196-231 | well-formed chunks whose words are the text's words, at most ceil(tokens/15) of them, none exactly for blank text |
| AudioService.SplitTextDynamically | Backend/util/audioService.js:196-231 | the push loop yields exactly the chunk list above |
| AudioService.ChunkAudio | Backend/util/audioService.js:244-282 | one audio buffer per chunk |
| AudioService.CollectInIndexOrder | Backend/util/audioService.js:244-282 | whatever the settling order, success exactly when every chunk synthesises, with the audio in chunk order; otherwise the error of a failing chunk |
| AudioService.Concat | Backend/util/audioService.js:285 | the combined buffer is the buffers in order, its length their total |
| AudioService.TextToSpeechDynamic | Backend/util/audioService.js:234-323 | success exactly when every chunk synthesises and the save succeeds; audio in chunk order, chunk and word counts, elapsed time and file URL; each failure's error |
| AudioService.TextToSpeech | Backend/util/audioService.js:12-47 | success exactly when the request and write succeed; errors passed through unchanged; the URL is `/storage/audio/tts_….mp3` |
| AudioService.StreamTranscript | Backend/util/audioService.js:110-179 | chunks concatenated in order; a buffer under 2048 bytes is refused before the transcriber is called; otherwise the transcriber's result |
| AudioService.SpeechToTextStream | Backend/util/audioService.js:110-179 | the concatenation loop yields exactly the specified transcript |
| AudioService.UploadOf | Backend/util/audioService.js:49-107 | a raw buffer becomes `voice_input.webm`, a multer file keeps its name and type; other inputs are "Invalid audio input format" |
| AudioService.SpeechToText | Backend/util/audioService.js:49-107 | every failure carries the "Speech-to-text failed: " prefix; success is the transcript |
| AudioService.AnalyzeTextLength | Backend/util/audioService.js:182-202 | word count at least 1, character count the length, and the smallest chunk count holding the words at 15 per chunk |
| AudioService.ChunksWithinPlan | Backend/util/audioService.js:182-231 | the chunker never emits more chunks than the planned count |
| UsageLedger.RateOf | Backend/util/loggingService.js:5-22 | a price exists exactly for gpt-3.5-turbo, gpt-4o-mini, whisper-1 and tts-1-hd |
| UsageLedger.CalculateCost | Backend/util/loggingService.js:123-147 | per-thousand token prices for the chat models, per-thousand characters for speech, per-minute for transcription, 0 for unknown models, never negative |
| UsageLedger.AudioCostIgnoresOutput | Backend/util/loggingService.js:132-139 | speech and transcription costs ignore output tokens |
| UsageLedger.CostMonotone | Backend/util/loggingService.js:123-147 | more tokens never cost less |
| UsageLedger.RecordConsistent | Backend/util/loggingService.js:80-83 | recording an entry keeps the totals equal to the sums over the session's entries |
| UsageLedger.FilterSession | Backend/util/loggingService.js:211 | the filter keeps only that session's entries |
| UsageLedger.FilterSessionMembers | Backend/util/loggingService.js:211 | an entry survives the filter exactly when it is in the file and of that session |
| UsageLedger.Ledger.constructor | Backend/util/loggingService.js:25-30 | empty buffer, no session, nothing scheduled |
| UsageLedger.Ledger.StartSession | Backend/util/loggingService.js:39-54 | buffer cleared, fresh accumulator with zero totals |
| UsageLedger.Ledger.LogModelUsage | Backend/util/loggingService.js:56-95 | no session: nothing changes; otherwise the entry joins the session and the buffer and the totals grow by its amounts |
| UsageLedger.Ledger.LogMessage | Backend/util/loggingService.js:97-121 | no session: nothing changes; otherwise a message entry with the current totals is buffered and a save is scheduled |
| UsageLedger.Ledger.SaveLogs | Backend/util/loggingService.js:161-184 | the buffer is appended to the file and emptied; on a file error nothing changes |
| UsageLedger.Ledger.ForceSaveLogs | Backend/util/loggingService.js:187-192 | the scheduled save is cancelled and the buffer saved now |
| UsageLedger.Ledger.GetSessionLogs | Backend/util/loggingService.js:194-214 | exactly the file's entries of that session |
| UsageLedger.Ledger.GetAllLogs | Backend/util/loggingService.js:216-234 | the whole file, of which each session's logs are the filter |
| UsageLedger.Ledger.GetCurrentSessionStats | Backend/util/loggingService.js:236-249 | null exactly without a session; otherwise its totals and entry count |
| UsageLedger.SavedSessionLogs | Backend/util/loggingService.js:176-177 | after a save, a session's logs are its earlier logs followed by its buffered entries |
| UsageLedger.TwoCallsThenStats | Backend/util/loggingService.js:39-95 | two usages in a started session: two entries, summed tokens and costs |
| AiService.KeyIgnoresCase | Backend/util/aiService.js:20-27 | texts differing only in letter case share a cache entry |
| AiService.KeyIgnoresPadding | Backend/util/aiService.js:20-27 | a text with any whitespace added before and after it has the same cache key as the text |
| AiService.Lookup | Backend/util/aiService.js:20-23 | a lookup finds exactly the entry stored under the lower-cased, trimmed key |
| AiService.Put | Backend/util/aiService.js:25-35 | the key maps to the new reply; other surviving entries are unchanged; below the limit nothing is lost and a new key is appended to the order; at the limit exactly the first-inserted key is dropped (unless it is the one being set), the rest keep their order and the key goes last unless it was already present |
| AiService.EvictedValid | Backend/util/aiService.js:29-32 | eviction keeps the cache well formed and leaves room for one entry |
| AiService.PutValid | Backend/util/aiService.js:25-35 | the cache never holds more than 1000 entries and every key is listed once in insertion order |
| AiService.PutThenLookup | Backend/util/aiService.js:20-35 | a stored reply is what any text with the same key looks up |
| AiService.PutKeepsPosition | Backend/util/aiService.js:34 | below the limit, overwriting a key keeps its insertion position |
| AiService.PutEvictsEvenExistingKey | Backend/util/aiService.js:29-34 | at the limit, the earliest key is evicted even when it is the one being set, which then moves to the end |
| AiService.TerminatedJoin | Backend/util/aiService.js:118-121 | the accumulated context is the `join` plus one final separator |
| AiService.TruthyContents | Backend/util/aiService.js:128-132 | only truthy document texts are kept |
| AiService.Prefix | Backend/util/aiService.js:123 | `substring(0, n)` is the first min(length, n) characters |
| AiService.ContextBounds | Backend/util/aiService.js:98-135 | the context is a prefix of the accumulated text, within 3000 (retrieved chunks) or 2000 (fallback) characters, and whole when it fits |
| AiService.GetRelevantContext | Backend/util/aiService.js:98-135 | the two accumulation loops yield exactly the specified context: "" without documents, retrieved chunks, or the fallback texts when retrieval fails |
| AiService.SearchContext | Backend/util/aiService.js:202-240 | "" when the session or its agent is missing, otherwise the relevant context, never over 3000 characters |
| AiService.ChatMessages | Backend/util/aiService.js:139-160 | the agent prompt (or the default) first, the context as a second system message only when not blank, the user's message last |
| AiService.BotRequestHasNoContext | Backend/util/aiService.js:77-80 | the slow path sends the model only the prompt and the question, never the retrieved context |
| AiService.ReplyOf | Backend/util/aiService.js:194-198 | the completion's text, or the fixed apology when the call fails |
| AiService.CombineResponse | Backend/util/aiService.js:243-252 | the model output is returned and the context discarded |
| AiService.UntrackedCallsLogNothing | Backend/util/aiService.js:180-192 | without a tracked session no call leaves a trace in the ledger |
| AiService.CallsLogOnePerSuccess | Backend/util/aiService.js:173-192 | with a tracked session each successful call adds exactly one entry and failures none |
| AiService.CachedReplyShortCircuits | Backend/util/aiService.js:40-43 | a non-empty cached reply is returned with no model call and no cache change, on both cached paths |
| AiService.BotReplyCases | Backend/util/aiService.js:37-96 | `generateBotResponse` always replies: the cached text, the error apology without session or agent, the AI apology, or the model's text |
| AiService.UltraFastReply | Backend/util/aiService.js:331-350 | without a hit, a successful fast call is the reply with one logged call, and the reply is left in the cache under the text's key |
| AiService.FallbackOnlyAfterFastFailure | Backend/util/aiService.js:255-277 | the fast model is asked first; the slow model only after it failed and only with a usable session, at most once |
| AiService.ReplyService.constructor | Backend/util/aiService.js:17-18 | an empty cache over the given ledger |
| AiService.ReplyService.SetCachedResponse | Backend/util/aiService.js:25-35 | the cache becomes the specified insertion |
| AiService.ReplyService.GenerateResponseWithAI | Backend/util/aiService.js:137-199 | the reply is the completion text or the apology; a successful call is charged to the tracked session |
| AiService.ReplyService.GenerateFastLLMResponse | Backend/util/aiService.js:280-328 | the fast model's text, or its error passed on; success charged to the tracked session |
| AiService.ReplyService.GenerateBotResponse | Backend/util/aiService.js:37-96 | reply, cache and ledger are those of the specified bot turn |
| AiService.ReplyService.GenerateBotResponseOptimized | Backend/util/aiService.js:255-277 | reply, cache and ledger are those of the fast-then-fallback turn |
| AiService.ReplyService.GenerateUltraFastResponse | Backend/util/aiService.js:331-350 | reply, cache and ledger are those of the cached ultra-fast turn |
| Store.UserWithEmail | Backend/service/userService.js:8-10 | the found user has the email; none exactly when no user has it |
| Store.OpenSessionOf | Backend/service/sessionService.js:12-17 | the found session belongs to the agent and is open; none exactly when the agent has no open session |
| Store.OpenSessionUnique | Backend/service/sessionService.js:11-21 | under the one-open-session rule, the open session found is the only one |
| Store.MessagesOf | Backend/service/sessionService.js:64-68 | a message is listed exactly when it is stored and belongs to the session |
| Store.MessagesOfAppend | Backend/service/messageService.js:58-63 | a stored message joins the end of its own session's list and no other |
| Store.AgentsOf | Backend/service/userService.js:26-39 | an agent is listed exactly when it is stored and belongs to the user |
| Store.AgentsOfAppend | Backend/service/userService.js:26-39 | a new agent joins the end of its own user's list and no other, so the list is in creation order |
| Store.Positions | Backend/service/agentService.js:65-73 | a `where` selection: exactly the matching rows, in table order |
| Store.Where | Backend/service/agentService.js:65-73 | the rows a `where` clause selects: only matching rows, and every matching row |
| Store.WhereAppend | Backend/service/messageService.js:122-130 | a `where` selection lists rows in table order: a row appended to the table joins the end of the selection exactly when it matches |
| UserService.CreateUser | Backend/service/userService.js:4-23 | a taken email is 400 with nothing created; otherwise exactly one user appended, other tables untouched |
| UserService.GetUserById | Backend/service/userService.js:25-46 | 404 "User not found" exactly for a missing id; otherwise the user with its agents |
| UserService.GetAllUsers | Backend/service/userService.js:48-59 | every user, in order, each with its agents |
| UserService.RegisterTwice | Backend/service/userService.js:4-23 | registering the same email twice: the second call is refused and exactly one user was added |
| SessionService.StartSession | Backend/service/sessionService.js:4-30 | 404 for a missing agent; the agent's open session if it has one; otherwise one new open session; other tables untouched and one open session per agent kept |
| SessionService.EndSession | Backend/service/sessionService.js:32-48 | 404 for a missing session, 400 when already ended, otherwise the session alone gets its end time |
| SessionService.GetSessionById | Backend/service/sessionService.js:50-77 | 404 exactly for a missing id; otherwise the session with its messages, its agent row exactly when that agent exists, and the agent's owner exactly when that user exists |
| SessionService.GetActiveSession | Backend/service/sessionService.js:79-95 | null exactly when the agent has no open session; otherwise that session with its messages |
| SessionService.StartTwice | Backend/service/sessionService.js:4-30 | starting twice returns the same session and creates at most one |
| SessionService.EndTwice | Backend/service/sessionService.js:32-48 | ending twice: the second call is refused and the first end time stays |
| MessageService.AfterLastDot | Backend/service/messageService.js:177 | `split(".").pop()`: the dot-free tail after the last dot, or the whole name |
| MessageService.AfterLastDotOfJoin | Backend/service/messageService.js:177 | a name `p.e` with dot-free `e` has tail `e` |
| MessageService.AudioFileNameKeepsExtension | Backend/service/messageService.js:175-178 | the saved name keeps the original's extension |
| MessageService.SaveAudioFile | Backend/service/messageService.js:172-199 | `/storage/audio/session_<id>_<stamp>_<suffix>.<ext>`, or "Failed to save audio file: " and the write error |
| MessageService.AudioStep | Backend/service/messageService.js:33-40 | a transcription failure, then a save failure, passed on; otherwise the transcript with the saved URL |
| MessageService.MessagePlan | Backend/service/messageService.js:6-63 | 404 missing session, 400 ended session, 500 "Error processing audio: …" on an audio failure; otherwise a row with the given text or the transcript and its URL |
| MessageService.BotRow | Backend/service/messageService.js:72-106 | the reply with its audio URL when speech succeeds; otherwise the fallback apology with no audio |
| MessageService.DocumentViews | Backend/util/aiService.js:48-67 | an agent's documents with their ids and texts |
| MessageService.SessionViewOf | Backend/util/aiService.js:48-74 | the session's agent with its prompt, present exactly when the agent row exists |
| MessageService.SessionRowsAppended | Backend/service/messageService.js:58-106 | rows of one session appended extend that session's list and leave the others unchanged |
| MessageService.PrepareMessage | Backend/service/messageService.js:6-55 | the checks and the audio step produce exactly the planned row or error |
| MessageService.StoreReply | Backend/service/messageService.js:65-112 | the bot turn's reply is spoken and stored as one bot row; cache and ledger as the bot turn leaves them |
| MessageService.CreateMessage | Backend/service/messageService.js:6-116 | an error stores nothing; a bot message stores one row; a user message stores it and the bot's reply after it |
| MessageService.GetSessionMessages | Backend/service/messageService.js:118-153 | 404 "Session not found with ID: <id>" exactly for a missing session; otherwise every message of that session and no other, in stored (creation) order |
| MessageService.GetMessageById | Backend/service/messageService.js:155-170 | 404 exactly for a missing id; otherwise the message with its session |
| MessageService.UserTurnListed | Backend/service/messageService.js:58-94 | after a user turn the session lists the user message then the bot reply, other sessions unchanged |
| AgentService.CleanTextShape | Backend/service/agentService.js:147 | the cleaned text is trimmed and its only whitespace is single spaces |
| AgentService.SentenceEndFrom | Backend/service/agentService.js:169 | the search result is -1 or a position with a character after it |
| AgentService.SentenceEndFirst | Backend/service/agentService.js:169 | `search(/[.!?]\s+/)` finds the first sentence end, or -1 when there is none |
| AgentService.CutPoint | Backend/service/agentService.js:157-173 | a window ends within its last 100 characters, at its full size when it reaches the text's end |
| AgentService.CutAtSentenceEnd | Backend/service/agentService.js:159-173 | a shortened window ends just after the first sentence end of its last 100 characters |
| AgentService.WindowAdvances | Backend/service/agentService.js:181 | each window moves the start forward by at least 701 characters, so the loop ends |
| AgentService.WindowChunksBounded | Backend/service/agentService.js:156-187 | every pushed chunk is non-empty and at most 1000 characters |
| AgentService.FinalWindow | Backend/service/agentService.js:175-186 | the last window pushes the trimmed rest of the text, which runs to its end |
| AgentService.LastChunkReachesEnd | Backend/service/agentService.js:156-187 | the window chunks are non-empty and the last one is a suffix of the text |
| AgentService.FinalWindowRepeatsTail | Backend/service/agentService.js:180-186 | a window reaching the end whose overlap start is still inside the text is followed by one more chunk repeating the tail |
| AgentService.ChunkTextShape | Backend/service/agentService.js:144-202 | a short text is one chunk (the cleaned text); a long one gives bounded non-empty chunks, the last a suffix of the cleaned text |
| AgentService.SplitTextIntoChunks | Backend/service/agentService.js:144-189 | the method yields exactly the specified chunk list |
| AgentService.WindowEnd | Backend/service/agentService.js:157-173 | the computed end is the specified cut point |
| AgentService.NextWindow | Backend/service/agentService.js:175-186 | one loop step: the pushed chunk and the next start continue the specified chunk list |
| AgentService.SlideWindow | Backend/service/agentService.js:153-189 | the window loop yields exactly the specified chunk list |
| AgentService.PathText | Backend/service/agentService.js:91-110 | the stored path starts with `/storage/uploads/` |
| AgentService.PathTextOfName | Backend/service/agentService.js:91-93 | the stored path of `stem.ext` ends with `.ext` |
| AgentService.EmbeddingRows | Backend/service/agentService.js:120-131 | one row per embedding, the i-th carrying chunk index i and its text length |
| AgentService.ProcessOutcomeShape | Backend/service/agentService.js:78-142 | every failure is a 500; no text, a blank text or a failed write stores nothing; otherwise the document is stored (even when embedding then fails), and on success its embeddings follow, numbered from 0 |
| AgentService.ProcessDocument | Backend/service/agentService.js:78-142 | the tables change exactly as the specified outcome says, and only those two tables |
| AgentService.AgentRecord | Backend/service/agentService.js:16-24 | a falsy prompt or key takes its default; the stored prompt is never empty |
| AgentService.OutcomeStores | Backend/service/agentService.js:78-142 | one file adds at most its own record, and adds it whenever it succeeds; a failure is a 500 that adds no embeddings; earlier embeddings are kept and new ones point at the new document |
| AgentService.ProcessRunDocuments | Backend/service/agentService.js:27-31 | the upload loop keeps the earlier documents and adds, in file order, the records of a prefix of the files, each storable; a run that finishes has stored every file; a run stopped by a file fails with a 500 |
| AgentService.ProcessRunEmbeddings | Backend/service/agentService.js:27-31 | the upload loop keeps the earlier embeddings, and every new embedding points at a document the run added |
| AgentService.ProcessRunStep | Backend/service/agentService.js:27-31 | processing file i over the tables left by the first i files, and stopping at its error, continues the whole run |
| AgentService.ProcessDocuments | Backend/service/agentService.js:27-31 | the loop over the files leaves exactly the tables of the run that stops at the first failing file, and fails with that file's error |
| AgentService.CreateAgent | Backend/service/agentService.js:7-34 | 404 for a missing user, with nothing created; otherwise the agent row is appended, the documents and embeddings are exactly those of the run over the files, and the result is the new agent id or the run's first error |
| AgentService.DocumentsOf | Backend/service/agentService.js:68-73 | an agent's included documents are exactly the documents with its id |
| AgentService.EmbeddingsOf | Backend/service/agentService.js:47-52 | a document's included embeddings are exactly the embedding rows with its id |
| AgentService.DocumentDetails | Backend/service/agentService.js:37-55 | exactly the agent's documents, each with only its own embeddings |
| AgentService.GetAgentById | Backend/service/agentService.js:36-62 | 404 "Agent not found" exactly for a missing id; otherwise the agent, its owner when present, and its documents |
| AgentService.GetUserAgents | Backend/service/agentService.js:64-76 | exactly the user's agents, in table order, each with only its own documents |
| VoiceService.AppendedStreams | Backend/util/voiceWebSocketService.js:43-49 | a send extends only the addressed client's frame stream, by exactly its frames |
| VoiceService.AppendedTwice | Backend/util/voiceWebSocketService.js:357-409 | two sends to one client are one send of both frame lists, in order |
| VoiceService.InitialStatsValid | Backend/util/voiceWebSocketService.js:17-23 | the initial statistics are consistent: no requests, no times, no fastest, slowest 0 |
| VoiceService.TrackedValid | Backend/util/voiceWebSocketService.js:654-672 | recording a time keeps the count equal to the number of times, the fastest their minimum and the slowest at least their maximum, and records exactly that time |
| VoiceService.SumTimes | Backend/util/voiceWebSocketService.js:667-670 | the `reduce` loop computes the sum of the recorded times |
| VoiceService.Speak | Backend/util/voiceWebSocketService.js:642-651 | no voice exactly when both the parallel speech and the single request fail; a parallel success carries the dynamic file's URL |
| VoiceService.InOrder | Backend/util/voiceWebSocketService.js:562-572 | a settling order covering every chunk once |
| VoiceService.SpeakReply | Backend/util/voiceWebSocketService.js:642-651 | parallel speech first, the single request on failure, as specified |
| VoiceService.PrepareTTSOptimization | Backend/util/voiceWebSocketService.js:627-639 | the `split(/\s+/)` word count and the smallest chunk count of at most ten words each, at least one |
| VoiceService.SpokenRows | Backend/util/voiceWebSocketService.js:553-609 | when the first speech works: the user row then one bot row with audio, the last frame not the apology |
| VoiceService.PlainRows | Backend/util/voiceWebSocketService.js:436-534 | the plain flow stores the user row, then the bot row with audio exactly when speech works; otherwise the apology is the last frame |
| VoiceService.RetriedRows | Backend/util/voiceWebSocketService.js:618-623 | when the first speech fails, the user message is stored twice, followed by the bot row only if the retry speaks |
| VoiceService.ResponseRows | Backend/util/voiceWebSocketService.js:537-624 | a response always starts with `generating_response` and stores two or three rows: user rows, then a bot row with audio exactly when the last frame is not the apology |
| VoiceService.TurnStartsProcessing | Backend/util/voiceWebSocketService.js:355-362 | a turn with audio and a session starts with `processing_audio` |
| VoiceService.AudioTurnShape | Backend/util/voiceWebSocketService.js:339-434 | no audio: nothing happens; a completed turn empties the audio buffer, stores rows and records one time; any other turn keeps the record, stores nothing and keeps the cache and statistics |
| VoiceService.TurnKeepsSession | Backend/util/voiceWebSocketService.js:399-424 | a turn keeps a recording client's session rule |
| VoiceService.TranscriptionFrames | Backend/util/voiceWebSocketService.js:387-409 | a blank transcription sends `no_speech_detected` and keeps the record; otherwise the buffer grows by the text and a space and `transcription_complete` carries the text and the trimmed buffer |
| VoiceService.StartCheck | Backend/util/voiceWebSocketService.js:117-136 | a session can start exactly when it exists, is open and has its agent; otherwise one of the three messages |
| VoiceService.FreshRecord | Backend/util/voiceWebSocketService.js:32-40 | a new client keeps the session rule: it neither records nor holds audio without a session |
| VoiceService.VoiceConnections.constructor | Backend/util/voiceWebSocketService.js:13-24 | no clients, no frames, the initial statistics, and the service invariant |
| VoiceService.VoiceConnections.Send | Backend/util/voiceWebSocketService.js:43-49 | frames are appended to the client's stream |
| VoiceService.VoiceConnections.Connect | Backend/util/voiceWebSocketService.js:29-49 | a fresh record under the new id and the `connection_established` frame |
| VoiceService.VoiceConnections.TrackPerformance | Backend/util/voiceWebSocketService.js:654-689 | the statistics become the consistent ones with that time recorded |
| VoiceService.VoiceConnections.HandleStartSession | Backend/util/voiceWebSocketService.js:112-178 | unknown client: nothing; a failed check sends "Failed to start session: …" and changes nothing; otherwise the record is reset to record for that session, `session_started` is sent and the ledger starts that session |
| VoiceService.VoiceConnections.HandleAudioChunk | Backend/util/voiceWebSocketService.js:180-223 | ignored unless the client records and the socket is open; the chunk is appended and acknowledged with the new count; undecodable data sends the error frame |
| VoiceService.VoiceConnections.SendSpoken | Backend/util/voiceWebSocketService.js:487-517 | the bot row is stored, the message logged, and `bot_response` sent only on an open socket |
| VoiceService.VoiceConnections.BeginResponse | Backend/util/voiceWebSocketService.js:544-569 | `generating_response`, the ultra-fast reply with its cache and ledger effects, and the stored user message |
| VoiceService.VoiceConnections.RespondPlain | Backend/util/voiceWebSocketService.js:440-533 | frames, rows, cache and ledger are those of the specified plain response |
| VoiceService.VoiceConnections.RespondOptimized | Backend/util/voiceWebSocketService.js:541-623 | frames, rows, cache and ledger are those of the specified optimised response |
| VoiceService.VoiceConnections.GenerateAndSendResponse | Backend/util/voiceWebSocketService.js:436-534 | nothing without a client session; otherwise the plain response |
| VoiceService.VoiceConnections.GenerateAndSendResponseOptimized | Backend/util/voiceWebSocketService.js:537-624 | nothing without a client session; otherwise the optimised response |
| VoiceService.VoiceConnections.ProcessAccumulatedAudio | Backend/util/voiceWebSocketService.js:339-434 | unknown client: nothing; otherwise the record, frames, rows, cache, ledger and statistics of the specified turn |
| VoiceService.VoiceConnections.CompleteTurn | Backend/util/voiceWebSocketService.js:399-424 | a non-blank transcription extends the buffer, confirms it, responds, records the time and empties the audio |
| VoiceService.VoiceConnections.HandleStopRecording | Backend/util/voiceWebSocketService.js:274-286 | recording stops, then the buffered audio is processed as one turn |
| VoiceService.VoiceConnections.Touch | Backend/util/voiceWebSocketService.js:85-88 | a known client's activity time becomes now, nothing else in the record changes, and the session rule is kept |
| VoiceService.VoiceConnections.HandleMessage | Backend/util/voiceWebSocketService.js:51-110 | an unparsable frame sends "Error processing message"; a known client's activity time is refreshed and the frame dispatched: start, chunk, stop, `pong` with the time, others ignored |
| VoiceService.VoiceConnections.CleanupClient | Backend/util/voiceWebSocketService.js:691-713 | the client is removed; when it was the last one, pending logs are saved and the ledger stops tracking a session |
| VoiceService.VoiceConnections.CloseIdle | Backend/util/voiceWebSocketService.js:721-725 | the stale client's socket is closed and the client cleaned up, no other stream touched |
| VoiceService.VoiceConnections.CloseNext | Backend/util/voiceWebSocketService.js:721-725 | one more stale client closed keeps the sweep's account: exactly the closed clients removed, each stream extended by one close, the ledger cleared only when none remain |
| VoiceService.VoiceConnections.Sweep | Backend/util/voiceWebSocketService.js:716-728 | exactly the clients idle for more than five minutes are closed and removed; the ledger is cleared when that was every client |
| VoiceService.VoiceConnections.CloseAll | Backend/util/voiceWebSocketService.js:721-726 | whatever the order, the given clients are closed and removed and the ledger is cleared when they were all |

## Left out

- Identifiers, clocks and randomness (`uuidv4`, `Date.now()`, `Math.random()` file-name suffixes, generated client ids): these are parameters. Row identifiers are sequence indexes.
- OpenAI (speech, transcription, chat), the vector index and the embedding service: these are oracle functions or given results. Only how their outcomes are used is modelled.
- File-system outcomes (audio files, the day's log file, uploaded documents): each write is a given error-or-success. Reading the log file is the ledger's `logFile` sequence.
- Unexpected database failures: the services turn these into 500 `ApiError`s or log-and-rethrow. The store here cannot fail, so those paths are not modelled. The 500 paths the code itself raises (audio saving, document processing) are modelled.
- The voice service's debug saves `saveAudioChunk` (Backend/util/voiceWebSocketService.js:225-272) and `saveFinalCompleteAudio` (288-309) write files that nothing reads. They are left out.
- Silence detection: `resetSilenceTimer` returns immediately in the code and its call is commented out. No timer is ever set, so `clearSilenceTimer` changes nothing and neither is modelled.
- The periodic sweep timer (`setInterval`, 60 s) is not modelled. `VoiceConnections.Sweep` is one firing of its body with the current time as a parameter.
- The socket `error` handler only logs and is left out. The socket's `readyState` is a boolean parameter.
- `JSON.parse` and base64 decoding are not modelled. An unparsable frame is `None`; a chunk whose data cannot be turned into a buffer is `audioData == None`.
- In `handleAudioChunk`, a failing debug save would send the error frame after the chunk had already been appended. The save is left out, so the model sends the error frame only when the chunk has no data (`audioData == None`), and then appends nothing.
- `Promise.all` in `generateAndSendResponseOptimized` runs its two steps in sequence. Their state effects are on disjoint parts (the message table; the speech result), so order does not matter.
- The settling order of the parallel text-to-speech requests is a parameter of `AudioService.TextToSpeechDynamic`. `VoiceService.SpeakReply` fixes it to chunk order, which is sound because the result does not depend on it (`AudioService.CollectInIndexOrder`).
- The `efficiency` field of `textToSpeechDynamic`'s result is left out. It is a floating-point division that nothing reads.
- `trackPerformance`'s console report every ten requests is left out.
- VoiceService.PrepareTTSOptimization: the `catch` returning `{0, 1}` is left out because `split` cannot throw on a string. The prepared value is unused by `generateOptimizedTTS` in the code, and so also in the model.
- Text.ToLower: only ASCII letters are lowered. This is exact for the upload filter's extension list, but only an approximation of `toLowerCase` for cache keys containing other letters.
- AgentService.SplitTextIntoChunks: its `catch` fallback (the whole text as one chunk) cannot be reached, because the splitter does not throw. It is left out.
- UserService.GetUserById: the user's agents are returned without their nested documents. The documents are what `AgentService.GetUserAgents` returns.
- Usage logging to the console and all `console.log` output are left out.
- The controllers, routes, `logService` wrappers, Sequelize models and the frontend components other than the user slice are not part of this model.
- AudioService.AnalyzeTextLength: `sentenceCount` and the floating-point `averageWordsPerSentence` are not modelled; nothing in the core reads them. The character count is the number of code points, while JavaScript's `length` counts UTF-16 units. The two agree only for text in the Basic Multilingual Plane.
- AiService.Prefix: `substring(0, n)` is modelled on code points. JavaScript counts UTF-16 units, so outside the Basic Multilingual Plane the JavaScript prefix can be shorter and can end in half a surrogate pair.
- AiService.ContextBounds: the 3000- and 2000-character context limits are counted in code points, not UTF-16 units. They agree only for text in the Basic Multilingual Plane; with astral characters (emoji, say) the JavaScript context holds fewer characters than the model's.
- AiService.SearchContext: the same code-point counting of the context limits as `AiService.ContextBounds`.
- AgentService.CutPoint: window lengths, the 100-character search span and the cut index count code points, not UTF-16 units. For example, 600 copies of "😀" have JavaScript length 1200, so the code cuts them into two chunks, while the model sees 600 characters and keeps one. A JavaScript cut can also split a surrogate pair.
- AgentService.WindowChunksBounded: the 1000-character bound on each chunk is in code points; in UTF-16 units a chunk of astral characters can be up to twice as long.
- AgentService.ChunkTextShape: the short-text test (`length <= 1000`) counts code points, so the short/long split agrees with the code only for text in the Basic Multilingual Plane (see `AgentService.CutPoint`).
- AgentService.EmbeddingRows: the stored `text_length` metadata is the chunk's length in code points; the code stores the chunk text's `length`, in UTF-16 units. They agree only for text in the Basic Multilingual Plane.
- VoiceService.VoiceConnections.HandleMessage, VoiceService.VoiceConnections.HandleStopRecording, VoiceService.VoiceConnections.ProcessAccumulatedAudio: each handler runs to completion before the next frame is handled. In the code, the handlers `await` the transcriber, the chat model and speech, so frames can interleave with them. Two behaviours of that are not captured. A second `stop_recording` that arrives during transcription processes the same chunks again, because `audioChunks` is cleared only after the turn (Backend/util/voiceWebSocketService.js:424). A `start_session` in the middle of a turn clears the chunks (line 140), and the chunks recorded after it are then wiped by that turn's own clear at line 424.

### Behaviour of the code worth noting

- `generateBotResponse` (Backend/util/aiService.js:76-84) starts the context search and the chat request together, and its comment says the context is used by the model. But the chat request is given `""` as its context (line 79), and the search result is never read: `finalResponse` is the chat reply as it came back. So the retrieved context never reaches the chat request on that path. `AiService.ReplyService.GenerateBotResponse` models exactly that.
- In the voice channel's optimised response, a failed first speech attempt falls back to `generateAndSendResponse`. By then the user message has already been stored, so it is stored a second time. If the retried speech also fails, no bot message is stored and the client receives only the apology (`VoiceService.RetriedRows`).
