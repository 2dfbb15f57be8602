/**
 * The speech pipeline helpers: the 15-word text chunker that feeds
 * parallel text-to-speech, the index-ordered reassembly of the per-chunk
 * audio, the ordered concatenation and size check of streamed microphone
 * chunks before transcription, and the dispatch on the kind of
 * speech-to-text input.
 *
 * The OpenAI speech and transcription endpoints are oracle functions
 * passed in; the completion order of the parallel speech requests is a
 * parameter.
 */
module AudioService {
  import opened Common
  import opened Text
  import Wav

  const WordsPerChunk: nat := 15

  // ---------------------------------------------------------------------
  // Word chunking (`splitTextDynamically`)
  // ---------------------------------------------------------------------

  /** Every token is free of whitespace, as every `split(/\s+/)` token is. */
  predicate AllSpaceFree(ts: seq<string>)
  {
    forall k :: 0 <= k < |ts| ==> SpaceFree(ts[k])
  }

  /**
   * The chunks cut from a token list: each run of 15 tokens contributes its
   * non-empty tokens joined by single spaces, unless it has none.
   */
  function ChunksOf(ts: seq<string>): seq<string>
    decreases |ts|
  {
    if ts == [] then []
    else
      var n := Min(WordsPerChunk, |ts|);
      var ws := NonEmpty(ts[..n]);
      (if ws != [] then [Join(ws, " ")] else []) + ChunksOf(ts[n..])
  }

  /** What `splitTextDynamically(text)` returns. */
  function DynamicChunks(text: string): seq<string>
  {
    ChunksOf(SplitWs(text))
  }

  /** The words of all chunks, chunk after chunk. */
  function WordsOfChunks(cs: seq<string>): seq<string>
  {
    if cs == [] then [] else Words(cs[0]) + WordsOfChunks(cs[1..])
  }

  /** A chunk as the chunker emits it: one to 15 words joined by single spaces. */
  predicate WellFormedChunk(c: string)
  {
    && c != []
    && Unpadded(c)
    && 1 <= |Words(c)| <= WordsPerChunk
    && c == Join(Words(c), " ")
  }

  /** The non-empty tokens of one group, joined, read back as those tokens. */
  lemma GroupWords(g: seq<string>)
    requires AllSpaceFree(g)
    ensures var ws := NonEmpty(g);
      ws != [] ==> Join(ws, " ") != [] && Unpadded(Join(ws, " ")) && Words(Join(ws, " ")) == ws
  {
    var ws := NonEmpty(g);
    if ws != [] {
      NonEmptyProper(g);
      JoinProperWords(ws);
      WordsOfJoin(ws);
    }
  }

  lemma {:induction false} ChunksWellFormed(ts: seq<string>)
    requires AllSpaceFree(ts)
    ensures forall k :: 0 <= k < |ChunksOf(ts)| ==> WellFormedChunk(ChunksOf(ts)[k])
    decreases |ts|
  {
    if ts != [] {
      var n := Min(WordsPerChunk, |ts|);
      var g := ts[..n];
      GroupWords(g);
      ChunksWellFormed(ts[n..]);
    }
  }

  /** The chunks carry exactly the non-empty tokens, in their order. */
  lemma {:induction false} ChunksKeepWords(ts: seq<string>)
    requires AllSpaceFree(ts)
    ensures WordsOfChunks(ChunksOf(ts)) == NonEmpty(ts)
    decreases |ts|
  {
    if ts != [] {
      var n := Min(WordsPerChunk, |ts|);
      var g, rest := ts[..n], ts[n..];
      GroupWords(g);
      ChunksKeepWords(rest);
      assert ts == g + rest;
      NonEmptyAppend(g, rest);
      var r := ChunksOf(rest);
      if NonEmpty(g) != [] {
        assert ([Join(NonEmpty(g), " ")] + r)[1..] == r;
      } else {
        assert [] + r == r;
      }
    }
  }

  lemma {:induction false} ChunksEmptyIff(ts: seq<string>)
    ensures ChunksOf(ts) == [] <==> NonEmpty(ts) == []
    decreases |ts|
  {
    if ts != [] {
      var n := Min(WordsPerChunk, |ts|);
      var g, rest := ts[..n], ts[n..];
      ChunksEmptyIff(rest);
      assert ts == g + rest;
      NonEmptyAppend(g, rest);
    }
  }

  /** Joining the chunks with single spaces gives the non-empty tokens joined. */
  lemma {:induction false} ChunksJoin(ts: seq<string>)
    ensures Join(ChunksOf(ts), " ") == Join(NonEmpty(ts), " ")
    decreases |ts|
  {
    if ts != [] {
      var n := Min(WordsPerChunk, |ts|);
      var g, rest := ts[..n], ts[n..];
      var ws := NonEmpty(g);
      var r := ChunksOf(rest);
      assert NonEmpty(ts) == ws + NonEmpty(rest) by {
        assert ts == g + rest;
        NonEmptyAppend(g, rest);
      }
      ChunksJoin(rest);
      if ws == [] {
        assert ChunksOf(ts) == r;
        assert NonEmpty(ts) == NonEmpty(rest);
      } else {
        var c := Join(ws, " ");
        assert ChunksOf(ts) == [c] + r;
        ChunksEmptyIff(rest);
        if r == [] {
          assert NonEmpty(ts) == ws;
        } else {
          assert Join([c] + r, " ") == c + " " + Join(r, " ") by {
            assert ([c] + r)[1..] == r;
          }
          JoinAppend(ws, NonEmpty(rest), " ");
        }
      }
    }
  }

  lemma {:induction false} ChunkCount(ts: seq<string>)
    ensures |ChunksOf(ts)| <= (|ts| + WordsPerChunk - 1) / WordsPerChunk
    decreases |ts|
  {
    if ts != [] {
      var n := Min(WordsPerChunk, |ts|);
      ChunkCount(ts[n..]);
    }
  }

  /**
   * What the chunker promises about its output for any text: well-formed
   * chunks whose words, in order, are the text's words; joining them with
   * single spaces gives the words joined; at most one chunk per 15 tokens;
   * none exactly when the text is blank.
   */
  lemma DynamicChunksSound(text: string)
    ensures var cs := DynamicChunks(text);
      && (forall k :: 0 <= k < |cs| ==> WellFormedChunk(cs[k]))
      && WordsOfChunks(cs) == Words(text)
      && Join(cs, " ") == Join(Words(text), " ")
      && |cs| <= (|SplitWs(text)| + WordsPerChunk - 1) / WordsPerChunk
      && (cs == [] <==> IsBlank(text))
  {
    var ts := SplitWs(text);
    SplitWsTokenized(text);
    ChunksWellFormed(ts);
    ChunksKeepWords(ts);
    ChunksJoin(ts);
    ChunkCount(ts);
    ChunksEmptyIff(ts);
    WordsEmptyIffBlank(text);
  }

  /** One step of the loop: the trimmed join of a group is the chunk it contributes. */
  lemma TrimmedGroup(ts: seq<string>, i: nat, j: nat)
    requires Tokenized(ts) && i <= j <= |ts|
    ensures var ws := NonEmpty(ts[i..j]);
      Trim(Join(ts[i..j], " ")) == (if ws != [] then Join(ws, " ") else [])
      && (Trim(Join(ts[i..j], " ")) != [] <==> ws != [])
  {
    TokenizedSlice(ts, i, j);
    TrimJoinTokens(ts[i..j]);
    GroupWords(ts[i..j]);
  }

  /** One group of the loop: its trimmed join, when non-empty, is the next chunk. */
  lemma ChunksStep(ts: seq<string>, i: nat)
    requires Tokenized(ts) && i < |ts|
    ensures var next := Min(i + WordsPerChunk, |ts|);
      var c := Trim(Join(ts[i..next], " "));
      ChunksOf(ts[i..]) == (if c != [] then [c] else []) + ChunksOf(ts[next..])
  {
    var next := Min(i + WordsPerChunk, |ts|);
    assert ts[i..][..next - i] == ts[i..next];
    assert ts[i..][next - i..] == ts[next..];
    TrimmedGroup(ts, i, next);
  }

  /**
   * The push loop of `splitTextDynamically`: each group of 15 tokens is
   * joined with spaces, trimmed, and pushed when non-empty.
   */
  method SplitTextDynamically(text: string) returns (chunks: seq<string>)
    ensures chunks == DynamicChunks(text)
  {
    var words := SplitWs(text);
    SplitWsTokenized(text);
    chunks := [];
    var i := 0;
    while i < |words|
      invariant 0 <= i <= |words|
      invariant chunks + ChunksOf(words[i..]) == ChunksOf(words)
    {
      var next := Min(i + WordsPerChunk, |words|);
      var chunk := Join(words[i..next], " ");
      ChunksStep(words, i);
      ghost var before := chunks;
      if Trim(chunk) != [] {
        chunks := chunks + [Trim(chunk)];
        assert chunks + ChunksOf(words[next..]) == before + ([Trim(chunk)] + ChunksOf(words[next..]));
      }
      i := next;
    }
  }

  // ---------------------------------------------------------------------
  // Parallel text-to-speech and reassembly (`textToSpeechDynamic`)
  // ---------------------------------------------------------------------

  /** The resolved value of `textToSpeechDynamic`; `efficiency` is left out. */
  datatype DynamicSpeech = DynamicSpeech(
    audioBuffer: seq<byte>,
    audioFilePath: string,
    processingTime: int,
    chunkCount: nat,
    totalWords: nat)

  /** `arrival` lists the chunk indexes 0..n-1 in the order their requests settle. */
  predicate IsArrivalOrder(arrival: seq<nat>, n: nat)
  {
    && |arrival| == n
    && (forall k :: 0 <= k < |arrival| ==> arrival[k] < n)
    && (forall i :: 0 <= i < n ==> i in arrival)
  }

  /** Some chunk's request rejects with `e`. */
  predicate RejectedWith(chunks: seq<string>, synth: string -> Result<seq<byte>, string>, e: string)
  {
    exists i :: 0 <= i < |chunks| && synth(chunks[i]) == Err(e)
  }

  /** The URL of the saved dynamic speech file. */
  function DynamicSpeechPath(stamp: nat, suffix: string): string
  {
    "/storage/audio/" + DynamicSpeechName(stamp, suffix)
  }

  /** The saved file's name: `tts_dynamic_<stamp>_<suffix>.mp3`. */
  function DynamicSpeechName(stamp: nat, suffix: string): string
  {
    "tts_dynamic_" + NatToString(stamp) + "_" + suffix + ".mp3"
  }

  predicate AllSynthesized(chunks: seq<string>, synth: string -> Result<seq<byte>, string>)
  {
    forall i :: 0 <= i < |chunks| ==> synth(chunks[i]).Ok?
  }

  /** The per-chunk audio in chunk order. */
  function ChunkAudio(chunks: seq<string>, synth: string -> Result<seq<byte>, string>): (audio: seq<seq<byte>>)
    requires AllSynthesized(chunks, synth)
    ensures |audio| == |chunks|
  {
    seq(|chunks|, i requires 0 <= i < |chunks| => synth(chunks[i]).value)
  }

  /**
   * `Promise.all` over the per-chunk requests followed by the sort on
   * `index`: the outcomes are taken in the order they settle (`arrival`),
   * each stored at its chunk's index; the first rejection to settle
   * rejects the whole call, so there is never a partial result.
   */
  method CollectInIndexOrder(chunks: seq<string>, synth: string -> Result<seq<byte>, string>, arrival: seq<nat>)
    returns (r: Result<seq<seq<byte>>, string>)
    requires IsArrivalOrder(arrival, |chunks|)
    ensures r.Ok? <==> AllSynthesized(chunks, synth)
    ensures r.Ok? ==> r.value == ChunkAudio(chunks, synth)
    ensures r.Err? ==> RejectedWith(chunks, synth, r.error)
  {
    var n := |chunks|;
    var slots := new seq<byte>[n](_ => []);
    var k := 0;
    while k < n
      invariant 0 <= k <= n
      invariant forall j :: 0 <= j < k ==> synth(chunks[arrival[j]]).Ok? && slots[arrival[j]] == synth(chunks[arrival[j]]).value
    {
      var index := arrival[k];
      var outcome := synth(chunks[index]);
      if outcome.Err? {
        return Err(outcome.error);
      }
      slots[index] := outcome.value;
      k := k + 1;
    }
    forall i | 0 <= i < n ensures synth(chunks[i]).Ok? && slots[i] == synth(chunks[i]).value {
      assert i in arrival;
      var j :| 0 <= j < n && arrival[j] == i;
    }
    r := Ok(slots[..]);
  }

  /** `Buffer.concat(results.map(r => r.buffer))`. */
  method Concat(parts: seq<seq<byte>>) returns (combined: seq<byte>)
    ensures combined == Flatten(parts)
    ensures |combined| == TotalLength(parts)
  {
    combined := [];
    var i := 0;
    while i < |parts|
      invariant 0 <= i <= |parts|
      invariant combined == Flatten(parts[..i])
    {
      assert parts[..i + 1][..i] == parts[..i];
      combined := combined + parts[i];
      i := i + 1;
    }
    assert parts[..i] == parts;
    FlattenLength(parts);
  }

  /**
   * `textToSpeechDynamic`: splits `text`, synthesises every chunk with
   * `synth`, reassembles the audio in chunk order whatever the settling
   * order `arrival`, and saves it as `tts_dynamic_<stamp>_<suffix>.mp3`;
   * `saveError` is the outcome of the file write and `startTime`/`endTime`
   * are the clock readings.
   */
  method TextToSpeechDynamic(
    text: string, synth: string -> Result<seq<byte>, string>, arrival: seq<nat>,
    saveError: Option<string>, stamp: nat, suffix: string, startTime: int, endTime: int)
    returns (r: Result<DynamicSpeech, string>)
    requires IsArrivalOrder(arrival, |DynamicChunks(text)|)
    ensures var chunks := DynamicChunks(text);
      && (r.Ok? <==> AllSynthesized(chunks, synth) && saveError.None?)
      && (r.Ok? ==>
            && r.value.audioBuffer == Flatten(ChunkAudio(chunks, synth))
            && r.value.chunkCount == |chunks|
            && r.value.totalWords == |SplitWs(text)|
            && r.value.processingTime == endTime - startTime
            && r.value.audioFilePath == DynamicSpeechPath(stamp, suffix))
      && (r.Err? && !AllSynthesized(chunks, synth) ==> RejectedWith(chunks, synth, r.error))
      && (r.Err? && AllSynthesized(chunks, synth) ==> saveError == Some(r.error))
  {
    var chunks := SplitTextDynamically(text);
    var results := CollectInIndexOrder(chunks, synth, arrival);
    if results.Err? {
      return Err(results.error);
    }
    var combined := Concat(results.value);
    if saveError.Some? {
      return Err(saveError.value);
    }
    var fileName := DynamicSpeechName(stamp, suffix);
    r := Ok(DynamicSpeech(combined, "/storage/audio/" + fileName, endTime - startTime, |chunks|, |SplitWs(text)|));
  }

  // ---------------------------------------------------------------------
  // Single-request text-to-speech (`textToSpeech`)
  // ---------------------------------------------------------------------

  /** The resolved value of `textToSpeech`. */
  datatype Speech = Speech(audioBuffer: seq<byte>, audioFilePath: string)

  /** The saved file's name: `tts_<stamp>_<suffix>.mp3`. */
  function SpeechName(stamp: nat, suffix: string): string
  {
    "tts_" + NatToString(stamp) + "_" + suffix + ".mp3"
  }

  /**
   * `textToSpeech`: one request for the whole text; the audio is written
   * to `storage/audio` and served under `/storage/audio/`. A failure of
   * the request or of the write is rethrown unchanged; `writeError` is the
   * outcome of the directory creation and the write.
   */
  function TextToSpeech(text: string, synth: string -> Result<seq<byte>, string>,
                        stamp: nat, suffix: string, writeError: Option<string>): (r: Result<Speech, string>)
    ensures r.Ok? <==> synth(text).Ok? && writeError.None?
    ensures synth(text).Err? ==> r == Err(synth(text).error)
    ensures synth(text).Ok? && writeError.Some? ==> r == Err(writeError.value)
    ensures r.Ok? ==> r.value.audioBuffer == synth(text).value
    ensures r.Ok? ==> var p := r.value.audioFilePath;
              && |p| > |"/storage/audio/tts_"| + 4
              && p[..|"/storage/audio/tts_"|] == "/storage/audio/tts_"
              && p[|p| - 4..] == ".mp3"
  {
    match synth(text)
    case Err(e) => Err(e)
    case Ok(audio) =>
      if writeError.Some? then Err(writeError.value)
      else Ok(Speech(audio, "/storage/audio/" + SpeechName(stamp, suffix)))
  }

  // ---------------------------------------------------------------------
  // Speech-to-text
  // ---------------------------------------------------------------------

  /** The file handed to the transcription endpoint. */
  datatype Upload = Upload(bytes: seq<byte>, fileName: string, mimeType: string)

  /**
   * What `speechToTextStream` yields: the chunks are concatenated in the
   * order they were received; the combined buffer is validated before the
   * transcriber is called, and the transcriber's error is passed through.
   */
  function StreamTranscript(audioChunks: seq<seq<byte>>, transcribe: Upload -> Result<string, string>)
    : (r: Result<string, string>)
    ensures Wav.ValidateAudioBuffer(Flatten(audioChunks)).Err? ==> r == Err(Wav.ValidateAudioBuffer(Flatten(audioChunks)).error)
    ensures |Flatten(audioChunks)| < Wav.MinAudioBytes ==> r.Err?
    ensures |Flatten(audioChunks)| >= Wav.MinAudioBytes ==> r == transcribe(Upload(Flatten(audioChunks), "audio.webm", "audio/webm"))
  {
    var all := Flatten(audioChunks);
    var valid := Wav.ValidateAudioBuffer(all);
    if valid.Err? then Err(valid.error) else transcribe(Upload(all, "audio.webm", "audio/webm"))
  }

  /** `speechToTextStream`: the concatenation loop, then the transcript specified above. */
  method SpeechToTextStream(audioChunks: seq<seq<byte>>, transcribe: Upload -> Result<string, string>)
    returns (r: Result<string, string>)
    ensures r == StreamTranscript(audioChunks, transcribe)
  {
    var combined: seq<byte> := [];
    var i := 0;
    while i < |audioChunks|
      invariant 0 <= i <= |audioChunks|
      invariant combined == Flatten(audioChunks[..i])
    {
      assert audioChunks[..i + 1][..i] == audioChunks[..i];
      combined := combined + audioChunks[i];
      i := i + 1;
    }
    assert audioChunks[..i] == audioChunks;
    var valid := Wav.ValidateAudioBuffer(combined);
    if valid.Err? {
      return Err(valid.error);
    }
    r := transcribe(Upload(combined, "audio.webm", "audio/webm"));
  }

  /** The input kinds `speechToText` tells apart. */
  datatype AudioInput =
    | BufferInput(bytes: seq<byte>)
    | FileInput(buffer: Option<seq<byte>>, originalname: string, mimetype: string)
    | OtherInput

  const SttPrefix: string := "Speech-to-text failed: "

  /** The upload a given input becomes, or the reason it is refused. */
  function UploadOf(input: AudioInput): (r: Result<Upload, string>)
    ensures input.BufferInput? ==> r == Ok(Upload(input.bytes, "voice_input.webm", "audio/webm"))
    ensures input.FileInput? && input.buffer.Some? ==> r == Ok(Upload(input.buffer.value, input.originalname, input.mimetype))
    ensures r.Err? <==> input.OtherInput? || (input.FileInput? && input.buffer.None?)
    ensures r.Err? ==> r.error == "Invalid audio input format"
  {
    match input
    case BufferInput(b) => Ok(Upload(b, "voice_input.webm", "audio/webm"))
    case FileInput(buffer, name, mime) =>
      if buffer.Some? then Ok(Upload(buffer.value, name, mime)) else Err("Invalid audio input format")
    case OtherInput => Err("Invalid audio input format")
  }

  /** `speechToText`: any failure is rethrown with the "Speech-to-text failed: " prefix. */
  function SpeechToText(input: AudioInput, transcribe: Upload -> Result<string, string>): (r: Result<string, string>)
    ensures r.Err? ==> |r.error| >= |SttPrefix| && r.error[..|SttPrefix|] == SttPrefix
    ensures UploadOf(input).Err? ==> r == Err(SttPrefix + "Invalid audio input format")
    ensures UploadOf(input).Ok? ==>
      match transcribe(UploadOf(input).value)
      case Ok(t) => r == Ok(t)
      case Err(e) => r == Err(SttPrefix + e)
  {
    match UploadOf(input)
    case Err(e) => Err(SttPrefix + e)
    case Ok(u) =>
      match transcribe(u)
      case Ok(t) => Ok(t)
      case Err(e) => Err(SttPrefix + e)
  }

  /**
   * `analyzeTextLength` (word and character counts) together with the
   * `optimalChunks` plan `splitTextDynamically` derives from them; the
   * `sentenceCount` and the floating-point words-per-sentence average are
   * not modelled.
   */
  datatype TextAnalysis = TextAnalysis(wordCount: nat, charCount: nat, optimalChunks: nat)

  function AnalyzeTextLength(text: string): (a: TextAnalysis)
    ensures a.wordCount >= 1 && a.charCount == |text|
    ensures a.optimalChunks >= 1 && a.optimalChunks * WordsPerChunk >= a.wordCount
    ensures a.optimalChunks == 1 || (a.optimalChunks - 1) * WordsPerChunk < a.wordCount
  {
    var wc := |SplitWs(text)|;
    TextAnalysis(wc, |text|, Max(1, (wc + WordsPerChunk - 1) / WordsPerChunk))
  }

  /** The chunker never emits more chunks than the planned `optimalChunks`. */
  lemma ChunksWithinPlan(text: string)
    ensures |DynamicChunks(text)| <= AnalyzeTextLength(text).optimalChunks
  {
    ChunkCount(SplitWs(text));
  }
}
