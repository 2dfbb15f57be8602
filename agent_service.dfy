/**
 * Agents and their documents: agent creation with its defaults, document
 * processing (text check, stored record, embedding records numbered in
 * chunk order), and the character-window document chunker.
 */
module AgentService {
  import opened Common
  import opened Text
  import opened ApiRecords
  import opened Store
  import UploadFilter

  // ------------------------------------------------------------ chunker

  const MaxChunkSize: nat := 1000
  const OverlapSize: nat := 200
  /** The sentence search looks at the window's last 100 characters. */
  const SearchSpan: nat := 100

  /** `text.replace(/\s+/g, " ").trim()`. */
  function CleanText(text: string): string
  {
    Trim(CollapseWs(text))
  }

  /** The cleaned text is trimmed, and its only whitespace is single spaces. */
  lemma CleanTextShape(text: string)
    ensures var r := CleanText(text);
            Unpadded(r) && SingleSpaced(r)
  {
    var c := CollapseWs(text);
    var t := TrimStart(c);
    CollapseWsShape(text);
    TrimStartSuffix(c);
    SingleSpacedSlice(c, |c| - |t|, |c|);
    SingleSpacedSlice(t, 0, |TrimEnd(t)|);
  }

  predicate SentencePunct(c: char)
  {
    c == '.' || c == '!' || c == '?'
  }

  /** Position `p` of `w` starts a match of `/[.!?]\s+/`. */
  predicate SentenceBreakAt(w: string, p: int)
  {
    0 <= p && p + 1 < |w| && SentencePunct(w[p]) && IsSpace(w[p + 1])
  }

  function SentenceEndFrom(w: string, i: nat): (p: int)
    requires i <= |w|
    ensures p == -1 || (i <= p && p + 1 < |w|)
    decreases |w| - i
  {
    if i + 1 >= |w| then -1 else if SentenceBreakAt(w, i) then i else SentenceEndFrom(w, i + 1)
  }

  /** `w.search(/[.!?]\s+/)`: the first match position, or -1. */
  function SentenceEnd(w: string): (p: int)
    ensures p == -1 || (0 <= p && p + 1 < |w|)
  {
    SentenceEndFrom(w, 0)
  }

  lemma {:induction false} SentenceEndFromFirst(w: string, i: nat)
    requires i <= |w|
    ensures var p := SentenceEndFrom(w, i);
            && (p == -1 || (i <= p && SentenceBreakAt(w, p)))
            && forall q :: i <= q < (if p == -1 then |w| else p) ==> !SentenceBreakAt(w, q)
    decreases |w| - i
  {
    if i + 1 < |w| && !SentenceBreakAt(w, i) {
      SentenceEndFromFirst(w, i + 1);
    }
  }

  /** The search finds the first sentence end, or reports -1 when there is none. */
  lemma SentenceEndFirst(w: string)
    ensures var p := SentenceEnd(w);
            && (p == -1 || SentenceBreakAt(w, p))
            && forall q :: 0 <= q < (if p == -1 then |w| else p) ==> !SentenceBreakAt(w, q)
  {
    SentenceEndFromFirst(w, 0);
  }

  /**
   * Where the window starting at `start` ends: 1000 characters on, or,
   * when text remains beyond that, just after the first sentence end whose
   * whitespace follows within the window's last 100 characters.
   */
  function CutPoint(clean: string, start: nat): (end: nat)
    ensures start + MaxChunkSize - SearchSpan + 1 <= end <= start + MaxChunkSize
    ensures start + MaxChunkSize >= |clean| ==> end == start + MaxChunkSize
  {
    if start + MaxChunkSize < |clean| then
      var searchStart := start + MaxChunkSize - SearchSpan;
      var p := SentenceEnd(clean[searchStart..start + MaxChunkSize]);
      if p != -1 then searchStart + p + 1 else start + MaxChunkSize
    else start + MaxChunkSize
  }

  /**
   * A cut before the full window falls just after a sentence end, and no
   * earlier sentence end lies in the searched span.
   */
  lemma CutAtSentenceEnd(clean: string, start: nat)
    requires start + MaxChunkSize < |clean|
    ensures var end := CutPoint(clean, start);
            && (end < start + MaxChunkSize ==> SentenceBreakAt(clean, end - 1))
            && (forall q :: start + MaxChunkSize - SearchSpan <= q < end - 1 ==> !SentenceBreakAt(clean, q))
  {
    var searchStart := start + MaxChunkSize - SearchSpan;
    var w := clean[searchStart..start + MaxChunkSize];
    var p := SentenceEnd(w);
    SentenceEndFirst(w);
    var end := CutPoint(clean, start);
    if p != -1 {
      assert w[p] == clean[end - 1] && w[p + 1] == clean[end];
    }
    forall q | searchStart <= q < end - 1 ensures !SentenceBreakAt(clean, q) {
      assert !SentenceBreakAt(w, q - searchStart);
      assert w[q - searchStart] == clean[q] && w[q - searchStart + 1] == clean[q + 1];
    }
  }

  /**
   * The chunks `splitTextIntoChunks` pushes from the window starting at
   * `start` on: the window's text is trimmed and pushed when non-empty,
   * the next window starts 200 characters before this one's end, and the
   * loop stops once that is past the text.
   */
  function WindowChunks(clean: string, start: nat): seq<string>
    requires start < |clean|
    decreases |clean| - start
  {
    var end := CutPoint(clean, start);
    var piece := Trim(clean[start..Min(end, |clean|)]);
    var here := if |piece| > 0 then [piece] else [];
    var next := end - OverlapSize;
    if next >= |clean| then here else here + WindowChunks(clean, next)
  }

  /** `splitTextIntoChunks(text)`: one chunk for a short text, the window chunks otherwise. */
  function ChunkText(text: string): seq<string>
  {
    var clean := CleanText(text);
    if |clean| <= MaxChunkSize then [clean] else WindowChunks(clean, 0)
  }

  /** Every window advances the start by at least 701 characters, so the loop ends. */
  lemma WindowAdvances(clean: string, start: nat)
    ensures CutPoint(clean, start) - OverlapSize >= start + 701
    ensures CutPoint(clean, start) - OverlapSize <= start + MaxChunkSize - OverlapSize
  {
  }

  /** Chunks that are non-empty and at most 1000 characters each. */
  predicate BoundedChunks(cs: seq<string>)
  {
    forall k :: 0 <= k < |cs| ==> cs[k] != [] && |cs[k]| <= MaxChunkSize
  }

  lemma BoundedChunksAppend(a: seq<string>, b: seq<string>)
    requires BoundedChunks(a) && BoundedChunks(b)
    ensures BoundedChunks(a + b)
  {
    forall k | 0 <= k < |a + b| ensures (a + b)[k] != [] && |(a + b)[k]| <= MaxChunkSize {
      if k >= |a| {
        assert (a + b)[k] == b[k - |a|];
      }
    }
  }

  /** Every chunk the windows push is non-empty and at most 1000 characters. */
  lemma {:induction false} WindowChunksBounded(clean: string, start: nat)
    requires start < |clean|
    ensures BoundedChunks(WindowChunks(clean, start))
    decreases |clean| - start
  {
    var end := CutPoint(clean, start);
    var piece := Trim(clean[start..Min(end, |clean|)]);
    var here := if |piece| > 0 then [piece] else [];
    var next := end - OverlapSize;
    assert BoundedChunks(here);
    if next < |clean| {
      WindowChunksBounded(clean, next);
      BoundedChunksAppend(here, WindowChunks(clean, next));
      assert WindowChunks(clean, start) == here + WindowChunks(clean, next);
    } else {
      assert WindowChunks(clean, start) == here;
    }
  }

  lemma TrimKeepsLastChar(seg: string)
    requires seg != [] && !IsSpace(seg[|seg| - 1])
    ensures Trim(seg) != [] && Trim(seg) == seg[|seg| - |Trim(seg)|..]
  {
    var t := TrimStart(seg);
    TrimStartSuffix(seg);
    TrimStartSpaces(seg);
    assert |seg| - |t| <= |seg| - 1;
    assert t[|t| - 1] == seg[|seg| - 1];
    assert TrimEnd(t) == t;
  }

  /** The last window of an unpadded text pushes its trimmed rest, which runs to the text's end. */
  lemma FinalWindow(clean: string, start: nat)
    requires start < |clean| && Unpadded(clean)
    requires CutPoint(clean, start) - OverlapSize >= |clean|
    ensures WindowChunks(clean, start) == [Trim(clean[start..])]
    ensures Trim(clean[start..]) != [] && Trim(clean[start..]) == clean[|clean| - |Trim(clean[start..])|..]
  {
    var seg := clean[start..];
    assert clean[start..Min(CutPoint(clean, start), |clean|)] == seg;
    TrimKeepsLastChar(seg);
  }

  /**
   * The last chunk runs to the end of a trimmed text: it is a suffix of
   * the text, so nothing at the end is lost.
   */
  lemma {:induction false} LastChunkReachesEnd(clean: string, start: nat) returns (s: nat)
    requires start < |clean| && Unpadded(clean)
    ensures var cs := WindowChunks(clean, start);
            cs != [] && start <= s < |clean| && cs[|cs| - 1] == clean[s..]
    decreases |clean| - start
  {
    var end := CutPoint(clean, start);
    var next := end - OverlapSize;
    if next >= |clean| {
      FinalWindow(clean, start);
      s := |clean| - |Trim(clean[start..])|;
    } else {
      var piece := Trim(clean[start..Min(end, |clean|)]);
      WindowAdvances(clean, start);
      s := LastChunkReachesEnd(clean, next);
      LastOfAppend(if |piece| > 0 then [piece] else [], WindowChunks(clean, next), WindowChunks(clean, start));
    }
  }

  /**
   * When the final window holds more than 800 characters, the loop runs
   * once more and pushes the text's tail again: a last chunk lying wholly
   * inside the one before it.
   */
  lemma FinalWindowRepeatsTail(clean: string, start: nat)
    requires start < |clean| && Unpadded(clean)
    requires start + MaxChunkSize >= |clean| && start + MaxChunkSize - OverlapSize < |clean|
    ensures WindowChunks(clean, start)
         == [Trim(clean[start..]), Trim(clean[start + MaxChunkSize - OverlapSize..])]
  {
    var next := start + MaxChunkSize - OverlapSize;
    var seg := clean[start..];
    var piece := Trim(seg);
    assert CutPoint(clean, start) == start + MaxChunkSize;
    assert clean[start..Min(CutPoint(clean, start), |clean|)] == seg;
    TrimKeepsLastChar(seg);
    assert WindowChunks(clean, start) == [piece] + WindowChunks(clean, next);
    FinalWindow(clean, next);
  }

  /**
   * What `splitTextIntoChunks` promises: a short text is one chunk (empty
   * for a blank text); a long one gives non-empty chunks of at most 1000
   * characters, the last of them a suffix of the cleaned text.
   */
  lemma ChunkTextShape(text: string)
    ensures var clean := CleanText(text);
            var cs := ChunkText(text);
            && (|clean| <= MaxChunkSize ==> cs == [clean])
            && (|clean| > MaxChunkSize ==>
                  && cs != []
                  && (forall k :: 0 <= k < |cs| ==> cs[k] != [] && |cs[k]| <= MaxChunkSize)
                  && exists s :: 0 <= s < |clean| && cs[|cs| - 1] == clean[s..])
  {
    var clean := CleanText(text);
    if |clean| > MaxChunkSize {
      CleanTextShape(text);
      WindowChunksBounded(clean, 0);
      var s := LastChunkReachesEnd(clean, 0);
      var cs := WindowChunks(clean, 0);
      assert cs[|cs| - 1] == clean[s..];
    }
  }

  /**
   * The loop of `splitTextIntoChunks`, window by window, with the fallback
   * for short texts.
   */
  method SplitTextIntoChunks(text: string) returns (chunks: seq<string>)
    ensures chunks == ChunkText(text)
  {
    var clean := CleanText(text);
    if |clean| <= MaxChunkSize {
      return [clean];
    }
    chunks := SlideWindow(clean);
  }

  /**
   * Where the window from `start` ends: the full window, or just after the
   * first sentence end among its final hundred characters.
   */
  method WindowEnd(clean: string, start: nat) returns (end: nat)
    ensures end == CutPoint(clean, start)
  {
    end := start + MaxChunkSize;
    if end < |clean| {
      var searchStart := Max(start + MaxChunkSize - SearchSpan, start);
      var searchEnd := Min(start + MaxChunkSize, |clean|);
      var p := SentenceEnd(clean[searchStart..searchEnd]);
      if p != -1 {
        end := searchStart + p + 1;
      }
    }
  }

  /**
   * One pass of the window loop: the window's trimmed text and where the
   * next window starts. The chunk, when non-empty, comes first among the
   * chunks from this window on.
   */
  method NextWindow(clean: string, start: nat) returns (chunk: string, next: int)
    requires start < |clean|
    ensures next >= start + 701
    ensures next >= |clean| ==> WindowChunks(clean, start) == if |chunk| > 0 then [chunk] else []
    ensures next < |clean| ==>
              WindowChunks(clean, start) == (if |chunk| > 0 then [chunk] else []) + WindowChunks(clean, next)
  {
    var end := WindowEnd(clean, start);
    WindowAdvances(clean, start);
    chunk := Trim(clean[start..Min(end, |clean|)]);
    next := end - OverlapSize;
  }

  /** The window loop of `splitTextIntoChunks` over a cleaned text longer than one chunk. */
  method SlideWindow(clean: string) returns (chunks: seq<string>)
    requires |clean| > MaxChunkSize
    ensures chunks == WindowChunks(clean, 0)
  {
    chunks := [];
    var start := 0;
    while true
      invariant start < |clean|
      invariant chunks + WindowChunks(clean, start) == WindowChunks(clean, 0)
      decreases |clean| - start
    {
      var chunk, next := NextWindow(clean, start);
      ghost var done := chunks;
      if |chunk| > 0 {
        chunks := chunks + [chunk];
      }
      if next >= |clean| {
        return;
      }
      Regroup(done, if |chunk| > 0 then [chunk] else [], WindowChunks(clean, next), chunks, WindowChunks(clean, start));
      start := next;
    }
  }

  // ------------------------------------------------------------ documents

  /** An uploaded file as multer hands it over. */
  datatype FileUpload = FileUpload(originalname: string, mimetype: string)

  /** One element of `createEmbeddings`' result. */
  datatype EmbeddedChunk = EmbeddedChunk(text: string, vectorId: string)

  /**
   * A document to process with the outcomes of what the model does not
   * see: the text extraction, the write of the file to disk, the clock
   * and random suffix of its stored name, and the embedding service
   * (given the chunks and the new document's id).
   */
  datatype DocumentInput = DocumentInput(
    file: FileUpload,
    extracted: Result<string, string>,
    writeError: Option<string>,
    stamp: nat,
    suffix: string,
    embed: (seq<string>, nat) -> Result<seq<EmbeddedChunk>, string>)

  const DocumentErrorPrefix: string := "Error processing document: "
  const NoTextMessage: string := "No text content extracted from document"

  const UploadsPrefix: string := "/storage/uploads/"

  /** The text of the `file_path` column: `/storage/uploads/<stamp>_<suffix><extname(originalname)>`. */
  function PathText(p: UploadPath): (s: string)
    ensures |s| > |UploadsPrefix| && s[..|UploadsPrefix|] == UploadsPrefix
  {
    UploadsPrefix + NatToString(p.stamp) + "_" + p.suffix + UploadFilter.Extname(p.originalname)
  }

  /** The stored path of a plain `stem.ext` upload ends with ".ext", whatever the clock and suffix. */
  lemma PathTextOfName(stamp: nat, suffix: string, stem: string, ext: string)
    requires stem != [] && UploadFilter.Lacks(stem, '/')
    requires UploadFilter.Lacks(ext, '.') && UploadFilter.Lacks(ext, '/')
    requires stem + "." + ext != ".."
    ensures var s := PathText(UploadPath(stamp, suffix, stem + "." + ext));
      |s| > |ext| + 1 && s[|s| - |ext| - 1..] == "." + ext
  {
    UploadFilter.ExtnameOfName(stem, ext);
    var s := PathText(UploadPath(stamp, suffix, stem + "." + ext));
    assert s == (UploadsPrefix + NatToString(stamp) + "_" + suffix) + ("." + ext);
  }

  /** The embedding records, the i-th carrying `chunk_index` i. */
  function EmbeddingRows(documentId: nat, es: seq<EmbeddedChunk>): (rows: seq<EmbeddingRow>)
    ensures |rows| == |es|
    ensures forall i :: 0 <= i < |es| ==>
              rows[i] == EmbeddingRow(documentId, es[i].text, es[i].vectorId, i, |es[i].text|)
  {
    seq(|es|, i requires 0 <= i < |es| => EmbeddingRow(documentId, es[i].text, es[i].vectorId, i, |es[i].text|))
  }

  /** The document's new row. */
  function DocumentRecord(agentId: nat, input: DocumentInput): DocumentRow
    requires input.extracted.Ok?
  {
    DocumentRow(agentId, input.file.originalname, input.file.mimetype,
                UploadPath(input.stamp, input.suffix, input.file.originalname), input.extracted.value)
  }

  /** What processing a document returns and leaves in the two tables it writes. */
  datatype DocumentOutcome = DocumentOutcome(
    result: Result<nat, ApiError>, documents: seq<DocumentRow>, embeddings: seq<EmbeddingRow>)

  /**
   * `processDocument(agentId, file)` over the document and embedding
   * tables: every failure becomes ApiError 500 "Error processing document:
   * <message>"; a failed extraction, a blank text or a failed write stops
   * before anything is stored; the document row is stored before the
   * chunks are embedded, so an embedding failure leaves it in place.
   */
  function ProcessOutcome(documents: seq<DocumentRow>, embeddings: seq<EmbeddingRow>, agentId: nat,
                          input: DocumentInput): DocumentOutcome
  {
    if input.extracted.Err? then
      DocumentOutcome(Err(Fail(500, DocumentErrorPrefix + input.extracted.error)), documents, embeddings)
    else if IsBlank(input.extracted.value) then
      DocumentOutcome(Err(Fail(500, DocumentErrorPrefix + NoTextMessage)), documents, embeddings)
    else if input.writeError.Some? then
      DocumentOutcome(Err(Fail(500, DocumentErrorPrefix + input.writeError.value)), documents, embeddings)
    else
      var id := |documents|;
      var stored := documents + [DocumentRecord(agentId, input)];
      var embedded := input.embed(ChunkText(input.extracted.value), id);
      if embedded.Err? then
        DocumentOutcome(Err(Fail(500, DocumentErrorPrefix + embedded.error)), stored, embeddings)
      else
        DocumentOutcome(Ok(id), stored, embeddings + EmbeddingRows(id, embedded.value))
  }

  /**
   * Every failure is a 500; nothing is stored unless the text is usable
   * and written; at most the one document row is added, and on success its
   * id is returned and one embedding row per embedded chunk, numbered in
   * order and pointing at it, follows the old ones.
   */
  lemma ProcessOutcomeShape(documents: seq<DocumentRow>, embeddings: seq<EmbeddingRow>, agentId: nat,
                            input: DocumentInput)
    ensures var o := ProcessOutcome(documents, embeddings, agentId, input);
            && (o.result.Err? ==> o.result.error.status == 500)
            && (input.extracted.Err? || IsBlank(input.extracted.value) || input.writeError.Some? ==>
                  o.result.Err? && o.documents == documents && o.embeddings == embeddings)
            && (input.extracted.Ok? && !IsBlank(input.extracted.value) && input.writeError.None? ==>
                  o.documents == documents + [DocumentRecord(agentId, input)])
            && (o.result.Ok? ==>
                  && input.extracted.Ok?
                  && o.result.value == |documents|
                  && o.documents == documents + [DocumentRecord(agentId, input)]
                  && |embeddings| <= |o.embeddings| && o.embeddings[..|embeddings|] == embeddings
                  && forall k :: |embeddings| <= k < |o.embeddings| ==>
                       o.embeddings[k].documentId == |documents| && o.embeddings[k].chunkIndex == k - |embeddings|)
            && (o.result.Err? ==> o.embeddings == embeddings)
  {
    var o := ProcessOutcome(documents, embeddings, agentId, input);
    if o.result.Ok? {
      assert o.embeddings[..|embeddings|] == embeddings;
    }
  }

  /** `processDocument(agentId, file)`, writing the two tables of the store in place. */
  method ProcessDocument(db: Database, agentId: nat, input: DocumentInput) returns (r: Result<nat, ApiError>)
    requires db.Valid()
    modifies db
    ensures db.Valid()
    ensures db.users == old(db.users) && db.agents == old(db.agents)
    ensures db.sessions == old(db.sessions) && db.messages == old(db.messages)
    ensures var o := ProcessOutcome(old(db.documents), old(db.embeddings), agentId, input);
            r == o.result && db.documents == o.documents && db.embeddings == o.embeddings
    ensures r.Err? ==> r.error.status == 500
    ensures r.Ok? ==> input.extracted.Ok? && db.documents == old(db.documents) + [DocumentRecord(agentId, input)]
    ensures db.documents == old(db.documents)
         || (input.extracted.Ok? && db.documents == old(db.documents) + [DocumentRecord(agentId, input)])
  {
    if input.extracted.Err? {
      return Err(Fail(500, DocumentErrorPrefix + input.extracted.error));
    }
    var contentText := input.extracted.value;
    if IsBlank(contentText) {
      return Err(Fail(500, DocumentErrorPrefix + NoTextMessage));
    }
    if input.writeError.Some? {
      return Err(Fail(500, DocumentErrorPrefix + input.writeError.value));
    }
    var id := |db.documents|;
    db.documents := db.documents + [DocumentRecord(agentId, input)];
    var chunks := SplitTextIntoChunks(contentText);
    var embedded := input.embed(chunks, id);
    if embedded.Err? {
      return Err(Fail(500, DocumentErrorPrefix + embedded.error));
    }
    var es := embedded.value;
    for i := 0 to |es|
      invariant db.embeddings == old(db.embeddings) + EmbeddingRows(id, es[..i])
      invariant db.documents == old(db.documents) + [DocumentRecord(agentId, input)]
      invariant db.users == old(db.users) && db.agents == old(db.agents)
      invariant db.sessions == old(db.sessions) && db.messages == old(db.messages)
    {
      var row := EmbeddingRow(id, es[i].text, es[i].vectorId, i, |es[i].text|);
      assert EmbeddingRows(id, es[..i + 1]) == EmbeddingRows(id, es[..i]) + [row];
      Regroup(old(db.embeddings), EmbeddingRows(id, es[..i]), [row], db.embeddings, EmbeddingRows(id, es[..i + 1]));
      db.embeddings := db.embeddings + [row];
    }
    assert es[..|es|] == es;
    r := Ok(id);
  }

  // --------------------------------------------------------------- agents

  const DefaultAgentPrompt: string := "You are a helpful AI assistant. Answer questions based on the provided documents."

  /** A JavaScript truthy string: present and non-empty. */
  predicate Truthy(s: Option<string>)
  {
    s.Some? && s.value != ""
  }

  /** The agent row `createAgent` stores: a falsy prompt or key takes its default. */
  function AgentRecord(userId: nat, name: string, prompt: Option<string>, apiKey: Option<string>,
                       defaultKey: Option<string>): (a: AgentRow)
    ensures a.userId == userId && a.name == name
    ensures a.prompt == (if Truthy(prompt) then prompt.value else DefaultAgentPrompt)
    ensures a.apiKey == (if Truthy(apiKey) then apiKey else defaultKey)
    ensures a.prompt != ""
  {
    AgentRow(userId, name, if Truthy(prompt) then prompt.value else DefaultAgentPrompt,
             if Truthy(apiKey) then apiKey else defaultKey)
  }

  /** A file `processDocument` stores: its text is extracted, not blank, and written to disk. */
  predicate Storable(input: DocumentInput)
  {
    input.extracted.Ok? && !IsBlank(input.extracted.value) && input.writeError.None?
  }

  /** What one file leaves in the tables: at most its own record, and embeddings only on success. */
  lemma OutcomeStores(documents: seq<DocumentRow>, embeddings: seq<EmbeddingRow>, agentId: nat, input: DocumentInput)
    ensures var o := ProcessOutcome(documents, embeddings, agentId, input);
            && (o.documents == documents || (Storable(input) && o.documents == documents + [DocumentRecord(agentId, input)]))
            && (o.result.Ok? ==> Storable(input) && o.documents == documents + [DocumentRecord(agentId, input)])
            && (o.result.Err? ==> o.result.error.status == 500 && o.embeddings == embeddings)
            && |embeddings| <= |o.embeddings| && o.embeddings[..|embeddings|] == embeddings
            && forall k :: |embeddings| <= k < |o.embeddings| ==> o.embeddings[k].documentId == |documents|
  {
    var o := ProcessOutcome(documents, embeddings, agentId, input);
    if o.result.Ok? {
      assert o.embeddings[..|embeddings|] == embeddings;
    }
  }

  /**
   * The loop of `createAgent` over the uploaded files, as values: each file
   * is processed in turn over the tables the previous one left, and the
   * first failure ends the run with its error.
   */
  function ProcessRun(documents: seq<DocumentRow>, embeddings: seq<EmbeddingRow>, agentId: nat,
                      files: seq<DocumentInput>): DocumentOutcome
    decreases |files|
  {
    if files == [] then DocumentOutcome(Ok(|documents|), documents, embeddings)
    else
      var o := ProcessOutcome(documents, embeddings, agentId, files[0]);
      if o.result.Err? then o
      else ProcessRun(o.documents, o.embeddings, agentId, files[1..])
  }

  /** The rows from `base` on are the records of the first files, each of them storable. */
  ghost predicate RecordsOfFiles(rows: seq<DocumentRow>, base: nat, agentId: nat, files: seq<DocumentInput>)
  {
    && base <= |rows| <= base + |files|
    && forall j :: 0 <= j < |rows| - base ==> Storable(files[j]) && rows[base + j] == DocumentRecord(agentId, files[j])
  }

  /**
   * The documents a run stores are the records of the first files, in
   * order, each of them storable and belonging to the agent; a run that
   * succeeds stores every file, and every failure is a 500.
   */

  lemma {:induction false} ProcessRunDocuments(documents: seq<DocumentRow>, embeddings: seq<EmbeddingRow>, agentId: nat,
                                               files: seq<DocumentInput>)
    ensures var run := ProcessRun(documents, embeddings, agentId, files);
            && RecordsOfFiles(run.documents, |documents|, agentId, files)
            && run.documents[..|documents|] == documents
            && (run.result.Ok? ==> |run.documents| == |documents| + |files|)
            && (run.result.Err? ==> run.result.error.status == 500)
    decreases |files|
  {
    if files != [] {
      var o := ProcessOutcome(documents, embeddings, agentId, files[0]);
      OutcomeStores(documents, embeddings, agentId, files[0]);
      if o.result.Ok? {
        var rest := files[1..];
        ProcessRunDocuments(o.documents, o.embeddings, agentId, rest);
        var run := ProcessRun(o.documents, o.embeddings, agentId, rest);
        assert run == ProcessRun(documents, embeddings, agentId, files);
        RecordsAfterFirst(documents, agentId, files, o.documents, run.documents);
      } else {
        assert ProcessRun(documents, embeddings, agentId, files) == o;
        if o.documents != documents {
          assert o.documents[..|documents|] == documents;
        }
      }
    }
  }

  /** A run whose first file was stored holds that file's record before the records of the rest. */
  lemma RecordsAfterFirst(documents: seq<DocumentRow>, agentId: nat, files: seq<DocumentInput>,
                          mid: seq<DocumentRow>, rows: seq<DocumentRow>)
    requires files != [] && Storable(files[0]) && mid == documents + [DocumentRecord(agentId, files[0])]
    requires RecordsOfFiles(rows, |mid|, agentId, files[1..]) && rows[..|mid|] == mid
    ensures RecordsOfFiles(rows, |documents|, agentId, files) && rows[..|documents|] == documents
  {
    StoredPrefix(documents, DocumentRecord(agentId, files[0]), mid, rows);
    RecordsShift(rows, |documents|, agentId, files);
  }

  /** The records of the files after the first, preceded by the first file's record, are the records of all of them. */
  lemma RecordsShift(rows: seq<DocumentRow>, base: nat, agentId: nat, files: seq<DocumentInput>)
    requires files != [] && base < |rows| && Storable(files[0]) && rows[base] == DocumentRecord(agentId, files[0])
    requires RecordsOfFiles(rows, base + 1, agentId, files[1..])
    ensures RecordsOfFiles(rows, base, agentId, files)
  {
    forall j | 0 <= j < |rows| - base
      ensures Storable(files[j]) && rows[base + j] == DocumentRecord(agentId, files[j])
    {
      if j > 0 {
        assert files[1..][j - 1] == files[j];
        assert rows[(base + 1) + (j - 1)] == rows[base + j];
      }
    }
  }

  /** Rows stored after a one-row extension keep the old rows and that row. */
  lemma StoredPrefix<T>(old_: seq<T>, x: T, mid: seq<T>, rows: seq<T>)
    requires mid == old_ + [x] && |mid| <= |rows| && rows[..|mid|] == mid
    ensures rows[..|old_|] == old_ && rows[|old_|] == x
  {
    assert rows[..|old_|] == rows[..|mid|][..|old_|];
    assert rows[|old_|] == rows[..|mid|][|old_|];
  }

  /**
   * The embedding rows a run stores follow the old ones, each pointing at
   * a document the run stored.
   */
  lemma {:induction false} ProcessRunEmbeddings(documents: seq<DocumentRow>, embeddings: seq<EmbeddingRow>, agentId: nat,
                                                files: seq<DocumentInput>)
    ensures var run := ProcessRun(documents, embeddings, agentId, files);
            && |embeddings| <= |run.embeddings| && run.embeddings[..|embeddings|] == embeddings
            && forall k :: |embeddings| <= k < |run.embeddings| ==>
                 |documents| <= run.embeddings[k].documentId < |run.documents|
    decreases |files|
  {
    if files != [] {
      var o := ProcessOutcome(documents, embeddings, agentId, files[0]);
      ProcessOutcomeShape(documents, embeddings, agentId, files[0]);
      if o.result.Ok? {
        ProcessRunEmbeddings(o.documents, o.embeddings, agentId, files[1..]);
        ProcessRunDocuments(o.documents, o.embeddings, agentId, files[1..]);
        var run := ProcessRun(o.documents, o.embeddings, agentId, files[1..]);
        assert run.embeddings[..|embeddings|] == embeddings by {
          assert run.embeddings[..|embeddings|] == run.embeddings[..|o.embeddings|][..|embeddings|];
        }
        forall k | |embeddings| <= k < |o.embeddings|
          ensures run.embeddings[k] == o.embeddings[k]
        {
          assert run.embeddings[k] == run.embeddings[..|o.embeddings|][k];
        }
      }
    }
  }

  /** The rest of a run from file `i` on, over the tables the first `i` files left, is the whole run. */
  lemma ProcessRunStep(documents: seq<DocumentRow>, embeddings: seq<EmbeddingRow>, agentId: nat,
                       files: seq<DocumentInput>, i: nat)
    requires i < |files|
    ensures var o := ProcessOutcome(documents, embeddings, agentId, files[i]);
            ProcessRun(documents, embeddings, agentId, files[i..])
              == if o.result.Err? then o else ProcessRun(o.documents, o.embeddings, agentId, files[i + 1..])
  {
    assert files[i..][0] == files[i] && files[i..][1..] == files[i + 1..];
  }

  /**
   * The loop of `createAgent` over the uploaded files: each is processed in
   * turn and the first failure is passed on, leaving the rows stored so far.
   */
  method ProcessDocuments(db: Database, agentId: nat, files: seq<DocumentInput>) returns (r: Result<(), ApiError>)
    requires db.Valid()
    modifies db
    ensures db.Valid()
    ensures db.users == old(db.users) && db.agents == old(db.agents)
    ensures db.sessions == old(db.sessions) && db.messages == old(db.messages)
    ensures var run := ProcessRun(old(db.documents), old(db.embeddings), agentId, files);
            && (r.Ok? <==> run.result.Ok?)
            && (r.Err? ==> r.error == run.result.error)
            && db.documents == run.documents && db.embeddings == run.embeddings
  {
    for i := 0 to |files|
      invariant db.Valid()
      invariant db.users == old(db.users) && db.agents == old(db.agents)
      invariant db.sessions == old(db.sessions) && db.messages == old(db.messages)
      invariant ProcessRun(db.documents, db.embeddings, agentId, files[i..])
             == ProcessRun(old(db.documents), old(db.embeddings), agentId, files)
    {
      ProcessRunStep(db.documents, db.embeddings, agentId, files, i);
      var processed := ProcessDocument(db, agentId, files[i]);
      if processed.Err? {
        return Err(processed.error);
      }
    }
    r := Ok(());
  }

  /**
   * `createAgent(agentData, files)`: 404 "User not found" for an unknown
   * user; otherwise the agent is stored and its files processed in order.
   * The first document failure is passed on, with the agent and the
   * documents before it already stored; `defaultKey` is the configured
   * default API key.
   */
  method CreateAgent(db: Database, userId: nat, name: string, prompt: Option<string>, apiKey: Option<string>,
                     defaultKey: Option<string>, files: seq<DocumentInput>)
    returns (r: Result<nat, ApiError>)
    requires db.Valid()
    modifies db
    ensures db.Valid()
    ensures db.users == old(db.users) && db.sessions == old(db.sessions) && db.messages == old(db.messages)
    ensures userId >= |old(db.users)| ==>
              && r == Err(Fail(404, "User not found")) && db.agents == old(db.agents)
              && db.documents == old(db.documents) && db.embeddings == old(db.embeddings)
    ensures userId < |old(db.users)| ==>
              var run := ProcessRun(old(db.documents), old(db.embeddings), |old(db.agents)|, files);
              && db.agents == old(db.agents) + [AgentRecord(userId, name, prompt, apiKey, defaultKey)]
              && db.documents == run.documents && db.embeddings == run.embeddings
              && (r.Ok? <==> run.result.Ok?)
              && (r.Ok? ==> r.value == |old(db.agents)|)
              && (r.Err? ==> r.error == run.result.error)
  {
    if userId >= |db.users| {
      return Err(Fail(404, "User not found"));
    }
    var agentId := |db.agents|;
    db.agents := db.agents + [AgentRecord(userId, name, prompt, apiKey, defaultKey)];
    var processed := ProcessDocuments(db, agentId, files);
    if processed.Err? {
      return Err(processed.error);
    }
    r := Ok(agentId);
  }

  // ------------------------------------------------------------ lookups

  /** A document with its embedding rows, as the agent lookup includes it. */
  datatype DocumentDetail = DocumentDetail(id: nat, document: DocumentRow, embeddings: seq<EmbeddingRow>)

  /** What `getAgentById` loads: the agent, its owner and its documents. */
  datatype AgentDetail = AgentDetail(agent: AgentRow, user: Option<UserRow>, documents: seq<DocumentDetail>)

  /** The documents of an agent, in table order. */
  function DocumentsOf(documents: seq<DocumentRow>, agentId: nat): (ds: seq<DocumentRow>)
    ensures forall d :: d in ds ==> d in documents && d.agentId == agentId
    ensures forall i :: 0 <= i < |documents| && documents[i].agentId == agentId ==> documents[i] in ds
  {
    Where(documents, (d: DocumentRow) => d.agentId == agentId)
  }

  /** The embedding rows of a document, in table order. */
  function EmbeddingsOf(embeddings: seq<EmbeddingRow>, documentId: nat): (es: seq<EmbeddingRow>)
    ensures forall e :: e in es ==> e in embeddings && e.documentId == documentId
    ensures forall i :: 0 <= i < |embeddings| && embeddings[i].documentId == documentId ==> embeddings[i] in es
  {
    Where(embeddings, (e: EmbeddingRow) => e.documentId == documentId)
  }

  /** The documents of an agent, each with its embeddings, in table order. */
  function DocumentDetails(documents: seq<DocumentRow>, embeddings: seq<EmbeddingRow>, agentId: nat)
    : (ds: seq<DocumentDetail>)
    ensures forall k :: 0 <= k < |ds| ==>
              && ds[k].id < |documents| && ds[k].document == documents[ds[k].id]
              && ds[k].document.agentId == agentId
              && forall e :: e in ds[k].embeddings ==> e in embeddings && e.documentId == ds[k].id
    ensures forall i :: 0 <= i < |documents| && documents[i].agentId == agentId ==>
              exists k :: 0 <= k < |ds| && ds[k].id == i
  {
    var ids := Positions(documents, (d: DocumentRow) => d.agentId == agentId);
    var ds := seq(|ids|, k requires 0 <= k < |ids| =>
      DocumentDetail(ids[k], documents[ids[k]], EmbeddingsOf(embeddings, ids[k])));
    assert forall k :: 0 <= k < |ds| ==> ds[k].id == ids[k];
    ds
  }

  /** `getAgentById(agentId)`: the agent with its owner and documents, or 404 "Agent not found". */
  function GetAgentById(db: Database, agentId: nat): (r: Result<AgentDetail, ApiError>)
    reads db
    ensures r.Err? <==> agentId >= |db.agents|
    ensures r.Err? ==> r.error == Fail(404, "Agent not found")
    ensures r.Ok? ==> r.value.agent == db.agents[agentId]
    ensures r.Ok? ==> (r.value.user.Some? <==> db.agents[agentId].userId < |db.users|)
    ensures r.Ok? ==> r.value.documents == DocumentDetails(db.documents, db.embeddings, agentId)
  {
    if agentId >= |db.agents| then Err(Fail(404, "Agent not found"))
    else
      var a := db.agents[agentId];
      Ok(AgentDetail(a, if a.userId < |db.users| then Some(db.users[a.userId]) else None,
                     DocumentDetails(db.documents, db.embeddings, agentId)))
  }

  /** An agent of a user with its documents. */
  datatype OwnedAgent = OwnedAgent(id: nat, agent: AgentRow, documents: seq<DocumentRow>)

  /** `getUserAgents(userId)`: every agent of the user, in table order, each with its documents. */
  function GetUserAgents(db: Database, userId: nat): (r: seq<OwnedAgent>)
    reads db
    ensures forall k :: 0 <= k < |r| ==>
              && r[k].id < |db.agents| && r[k].agent == db.agents[r[k].id] && r[k].agent.userId == userId
              && forall d :: d in r[k].documents ==> d in db.documents && d.agentId == r[k].id
    ensures forall i :: 0 <= i < |db.agents| && db.agents[i].userId == userId ==>
              exists k :: 0 <= k < |r| && r[k].id == i
    ensures forall j, k :: 0 <= j < k < |r| ==> r[j].id < r[k].id
  {
    var agents := db.agents;
    var documents := db.documents;
    var ids := Positions(agents, (a: AgentRow) => a.userId == userId);
    var r := seq(|ids|, k requires 0 <= k < |ids| => OwnedAgent(ids[k], agents[ids[k]], DocumentsOf(documents, ids[k])));
    assert forall k :: 0 <= k < |r| ==> r[k].id == ids[k];
    r
  }
}
