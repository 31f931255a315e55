/**
 * The ingestion endpoints (src/api/documents.py): `ingest_document`, the size
 * cap and mode switch of `batch_ingest_documents`, and `process_batch_job`,
 * the background task that ingests a queued batch document by document.
 *
 * A handler either returns its response model or raises an `HTTPException`,
 * here `Err(HttpError(status, detail))`. The store is the `Store` object of
 * the vector store; `StoreState` is a snapshot of its three fields, so that
 * what an endpoint does can be stated as a function of the state before it.
 */
module DocumentsApi {
  import opened Common
  import opened Text
  import opened DocumentProcessor
  import opened VectorStore
  import Jobs = JobManager

  /** `DocumentIngestRequest`; `metadata` defaults to `{}` and is always a dictionary. */
  datatype IngestRequest = IngestRequest(
    content: string,
    metadata: Meta,
    documentId: Option<string>,
    chunkSize: Option<int>,
    chunkOverlap: Option<int>)

  /** `DocumentIngestResponse`. */
  datatype IngestResponse = IngestResponse(
    documentId: string,
    chunksCreated: int,
    embeddingCount: int,
    status: string,
    processingTimeMs: int)

  /** An `HTTPException` with its status code and detail. */
  datatype ApiError = HttpError(status: int, detail: string)

  /** `BatchIngestRequest.processing_mode`, which the request model restricts to these two. */
  datatype Mode = Sync | Async

  /** The fields a `BatchIngestResponse` is built with; `estimated_completion_time` is always None. */
  datatype BatchResponse = BatchResponse(
    jobId: Option<string>,
    documentsQueued: int,
    statusEndpoint: Option<string>,
    status: string)

  /** `str(e)` of an `HTTPException`: its status code, a colon and its detail. */
  function ErrorText(e: ApiError): string {
    IntToString(e.status) + ": " + e.detail
  }

  /** The text of the database driver's exception when a commit fails; its real wording is not modelled. */
  const CommitFailureText: string := "commit failed"

  /** `str(e)` of what `add_documents` raises. */
  function StoreErrorText(e: StoreError): string {
    match e
    case CollectionNotFound(name) => "Collection '" + name + "' not found"
    case DuplicateCollection(name) => "Collection '" + name + "' already exists"
    case IndexOutOfRange(_, _) => "list index out of range"
    case ZeroStep => "range() arg 3 must not be zero"
    case CommitFailed(_) => CommitFailureText
  }

  // ---------------------------------------------------------------------------
  // The store as a value
  // ---------------------------------------------------------------------------

  datatype StoreState = StoreState(collections: map<string, CollectionRecord>, rows: seq<Row>, nextCollectionId: nat)

  function StateOf(store: Store): StoreState
    reads store
  {
    StoreState(store.collections, store.rows, store.nextCollectionId)
  }

  /** The metadata of a collection `ingest_document` creates on first use. */
  const AutoCreatedMetadata: Meta := map["created_by" := VStr("documents.ingest"), "search_type" := VStr("fulltext")]

  /** The collection `ingest_document` creates: no embedding dimension, cosine distance. */
  function AutoCollection(name: string, id: nat): CollectionRecord {
    CollectionRecord(id, name, Some("Collection for " + name), None, "cosine", AutoCreatedMetadata)
  }

  /**
   * The state after `ingest_document`'s lookup: a missing collection is
   * created with the next id; an existing one is left as it is.
   */
  function WithCollection(s: StoreState, name: string): (r: StoreState)
    ensures name in r.collections && r.rows == s.rows
    ensures name in s.collections ==> r == s
    ensures name !in s.collections ==> r.collections[name] == AutoCollection(name, s.nextCollectionId)
    ensures forall other :: other != name ==> (other in r.collections <==> other in s.collections)
    ensures forall other :: other != name && other in s.collections ==> r.collections[other] == s.collections[other]
  {
    if name in s.collections then s
    else StoreState(s.collections[name := AutoCollection(name, s.nextCollectionId)], s.rows, s.nextCollectionId + 1)
  }

  // ---------------------------------------------------------------------------
  // What ingest_document stores
  // ---------------------------------------------------------------------------

  /** `request.document_id or generate_document_id(content, metadata)`: an empty id counts as absent. */
  function DocumentIdFor(request: IngestRequest, sha256: string -> HexDigest): (id: string)
    ensures request.documentId.Some? && request.documentId.value != [] ==> id == request.documentId.value
    ensures request.documentId.None? || request.documentId.value == [] ==>
              id == sha256(HashInput(request.content, request.metadata))[..16]
    ensures request.documentId.None? || request.documentId.value == [] ==>
              |id| == 16 && forall i :: 0 <= i < 16 ==> IsHexDigit(id[i])
  {
    if request.documentId.Some? && request.documentId.value != [] then request.documentId.value
    else sha256(HashInput(request.content, request.metadata))[..16]
  }

  /** The chunks of the preprocessed content, carrying the extracted metadata. */
  function PreparedChunks(request: IngestRequest, settings: Settings): seq<Chunk> {
    var processed := Preprocess(request.content);
    Chunks(processed, request.chunkSize, request.chunkOverlap, ExtractMetadata(processed, request.metadata), settings)
  }

  /**
   * The source hands the preprocessed content to `chunk_document` as written.
   * Once the document is valid, its preprocessed content is not blank and the
   * effective overlap is positive (the request defaults 1000 / 200, or an
   * overlap of 0 or None, which falls back to the setting), that call never
   * returns, whatever fuel it is given. `PreparedChunks` uses the corrected
   * chunker instead.
   */
  lemma SourceChunkingNeverReturns(request: IngestRequest, settings: Settings, fuel: nat)
    requires Validation(request.content, Dict(request.metadata), settings) == None
    requires !IsBlank(Preprocess(request.content))
    requires EffectiveConfig(request.chunkSize, request.chunkOverlap, settings).overlap > 0
    ensures var processed := Preprocess(request.content);
      ChunkDocumentAsWritten(processed, request.chunkSize, request.chunkOverlap,
                             ExtractMetadata(processed, request.metadata), settings, fuel) == None
  {
    var processed := Preprocess(request.content);
    AsWrittenNeverReturns(processed, request.chunkSize, request.chunkOverlap,
                          ExtractMetadata(processed, request.metadata), settings, fuel);
  }

  /** The keys written over a chunk's own metadata before it is stored. */
  const StoredKeys: set<string> := {"document_id", "chunk_index", "start_char", "end_char", "total_chunks"}

  /** `{**chunk.metadata, document_id, chunk_index, start_char, end_char, total_chunks}`. */
  function StoredChunkMeta(chunk: Chunk, documentId: string, total: nat): (m: Meta)
    ensures m.Keys == chunk.metadata.Keys + StoredKeys
    ensures m["document_id"] == VStr(documentId) && m["chunk_index"] == VInt(chunk.chunkIndex)
    ensures m["start_char"] == VInt(chunk.startChar) && m["end_char"] == VInt(chunk.endChar)
    ensures m["total_chunks"] == VInt(total)
    ensures forall key :: key in chunk.metadata && key !in StoredKeys ==> m[key] == chunk.metadata[key]
  {
    chunk.metadata["document_id" := VStr(documentId)]["chunk_index" := VInt(chunk.chunkIndex)]
                  ["start_char" := VInt(chunk.startChar)]["end_char" := VInt(chunk.endChar)]
                  ["total_chunks" := VInt(total)]
  }

  /** The stored metadata of every chunk, in chunk order. */
  function StoredMetas(chunks: seq<Chunk>, documentId: string): (metas: seq<Meta>)
    ensures |metas| == |chunks|
    ensures forall i :: 0 <= i < |chunks| ==> metas[i] == StoredChunkMeta(chunks[i], documentId, |chunks|)
  {
    seq(|chunks|, i requires 0 <= i < |chunks| => StoredChunkMeta(chunks[i], documentId, |chunks|))
  }

  /** `f"{document_id}_chunk_{i}"`. */
  function ChunkId(documentId: string, i: nat): string {
    documentId + "_chunk_" + NatToString(i)
  }

  /** Distinct chunk numbers give distinct ids within one document. */
  lemma ChunkIdsDistinct(documentId: string, i: nat, j: nat)
    requires i != j
    ensures ChunkId(documentId, i) != ChunkId(documentId, j)
  {
    if ChunkId(documentId, i) == ChunkId(documentId, j) {
      var p := |documentId| + 7;
      assert NatToString(i) == ChunkId(documentId, i)[p..] == ChunkId(documentId, j)[p..] == NatToString(j);
      NatToStringInjective(i, j);
    }
  }

  /** `[f"{document_id}_chunk_{i}" for i in range(n)]`; no two are equal. */
  function ChunkIds(documentId: string, n: nat): (ids: seq<string>)
    ensures |ids| == n
    ensures forall i :: 0 <= i < n ==> ids[i] == ChunkId(documentId, i)
    ensures forall i, j :: 0 <= i < j < n ==> ids[i] != ids[j]
  {
    var ids := seq(n, i requires 0 <= i < n => ChunkId(documentId, i));
    forall i, j | 0 <= i < j < n
      ensures ids[i] != ids[j]
    {
      ChunkIdsDistinct(documentId, i, j);
    }
    ids
  }

  /** The `add_documents` call for a document's chunks: texts, no embeddings, stored metadata, chunk ids. */
  function ChunkRequest(chunks: seq<Chunk>, documentId: string): AddRequest {
    AddRequest(ChunkTexts(chunks), None, StoredMetas(chunks, documentId), ChunkIds(documentId, |chunks|))
  }

  /** The row stored for chunk `k` of a document. */
  function ChunkRow(collectionId: nat, chunks: seq<Chunk>, documentId: string, k: nat): Row
    requires k < |chunks|
  {
    Row(collectionId, ChunkId(documentId, k), chunks[k].content, StoredChunkMeta(chunks[k], documentId, |chunks|), None)
  }

  const NoChunksMessage: string := "No valid chunks generated from document"

  /** The state after an endpoint call and what it answers. */
  datatype Ingested = Ingested(state: StoreState, response: Result<IngestResponse, ApiError>)

  /**
   * `ingest_document` on a store in state `s`. The collection is created
   * first if missing; then a document that fails validation or yields no
   * chunk is answered with 400 and stores nothing; otherwise its chunks are
   * handed to `add_documents`, whose committed rows stay even when it raises
   * (a 500 with the exception's text). `failingCommit` is the database's
   * verdict on this document's commits.
   */
  function Ingest(s: StoreState, name: string, request: IngestRequest, settings: Settings,
                  sha256: string -> HexDigest, failingCommit: Option<nat>): (out: Ingested)
    ensures out.state.collections == WithCollection(s, name).collections
    ensures out.state.nextCollectionId == WithCollection(s, name).nextCollectionId
    ensures s.rows <= out.state.rows
    ensures out.response.Err? && out.response.error.status == 400 ==> out.state.rows == s.rows
    ensures out.response.Err? ==> out.response.error.status in {400, 500}
    ensures Validation(request.content, Dict(request.metadata), settings).Some? ==>
              out.response == Err(HttpError(400, InvalidMessage(Validation(request.content, Dict(request.metadata), settings).value)))
    ensures out.response.Ok? ==> out.response.value.documentId == DocumentIdFor(request, sha256)
                                 && out.response.value.status == "completed"
  {
    var s1 := WithCollection(s, name);
    match Validation(request.content, Dict(request.metadata), settings)
    case Some(reason) => Ingested(s1, Err(HttpError(400, InvalidMessage(reason))))
    case None =>
      var documentId := DocumentIdFor(request, sha256);
      var chunks := PreparedChunks(request, settings);
      if chunks == [] then Ingested(s1, Err(HttpError(400, NoChunksMessage)))
      else Stored(s1, name, chunks, documentId, settings, failingCommit)
  }

  /**
   * The last step of `ingest_document`: the chunks go to `add_documents`;
   * its committed rows are kept whether it returns or raises, and what it
   * raises is answered with 500 and the exception's text.
   */
  function Stored(s: StoreState, name: string, chunks: seq<Chunk>, documentId: string, settings: Settings,
                  failingCommit: Option<nat>): (out: Ingested)
    ensures out.state.collections == s.collections && out.state.nextCollectionId == s.nextCollectionId
    ensures s.rows <= out.state.rows
    ensures out.response.Err? ==> out.response.error.status == 500
    ensures out.response.Ok? ==> out.response.value.documentId == documentId && out.response.value.status == "completed"
  {
    var o := AddDocumentsSpec(s.collections, name, ChunkRequest(chunks, documentId), settings.batchCommitSize, failingCommit);
    var state := s.(rows := s.rows + o.committed);
    match o.result
    case Err(e) => Ingested(state, Err(HttpError(500, StoreErrorText(e))))
    case Ok(rows) => Ingested(state, Ok(IngestResponse(documentId, |rows|, 0, "completed", 0)))
  }

  /**
   * What an accepted document stores: the rows appended are the rows of its
   * first chunks, in order, under the collection's id, each with its chunk's
   * text, its `{document_id}_chunk_{k}` id and its stored metadata, and no
   * embedding. A document without chunks is answered with 400. When the call
   * succeeds with a positive commit size, every chunk is stored and the
   * response counts them.
   */
  lemma IngestStoresChunks(s: StoreState, name: string, request: IngestRequest, settings: Settings,
                           sha256: string -> HexDigest, failingCommit: Option<nat>)
    requires Validation(request.content, Dict(request.metadata), settings).None?
    ensures var out := Ingest(s, name, request, settings, sha256, failingCommit);
      var chunks := PreparedChunks(request, settings);
      var documentId := DocumentIdFor(request, sha256);
      var added := out.state.rows[|s.rows|..];
      && name in out.state.collections
      && |added| <= |chunks|
      && (forall k :: 0 <= k < |added| ==> added[k] == ChunkRow(out.state.collections[name].id, chunks, documentId, k))
      && (chunks == [] ==> out.response == Err(HttpError(400, NoChunksMessage)))
      && (out.response.Ok? && settings.batchCommitSize > 0 ==>
            |added| == |chunks| && out.response.value == IngestResponse(documentId, |chunks|, 0, "completed", 0))
  {
    var chunks := PreparedChunks(request, settings);
    if chunks != [] {
      var s1 := WithCollection(s, name);
      var documentId := DocumentIdFor(request, sha256);
      var req := ChunkRequest(chunks, documentId);
      var id := s1.collections[name].id;
      AddDocumentsRows(s1.collections, name, req, settings.batchCommitSize, failingCommit);
      var o := AddDocumentsSpec(s1.collections, name, req, settings.batchCommitSize, failingCommit);
      assert (s1.rows + o.committed)[|s.rows|..] == o.committed;
      forall k | 0 <= k < |o.committed|
        ensures o.committed[k] == ChunkRow(id, chunks, documentId, k)
      {
        RowAtSpec(id, req, k);
      }
    }
  }

  /** `ingest_document`, step by step against the store object. */
  method IngestDocument(store: Store, name: string, request: IngestRequest, settings: Settings,
                        sha256: string -> HexDigest, failingCommit: Option<nat>)
    returns (r: Result<IngestResponse, ApiError>)
    requires store.Valid()
    modifies store
    ensures store.Valid()
    ensures StateOf(store) == Ingest(old(StateOf(store)), name, request, settings, sha256, failingCommit).state
    ensures r == Ingest(old(StateOf(store)), name, request, settings, sha256, failingCommit).response
  {
    ghost var withCollection := WithCollection(StateOf(store), name);
    if store.GetCollection(name).None? {
      var created := store.CreateCollection(name, Some("Collection for " + name), None, "cosine", AutoCreatedMetadata);
    }
    assert StateOf(store) == withCollection;
    var valid, errorMessage := ValidateDocument(request.content, Dict(request.metadata), settings);
    if !valid {
      return Err(HttpError(400, errorMessage.value));
    }
    var documentId: string;
    if request.documentId.Some? && request.documentId.value != [] {
      documentId := request.documentId.value;
    } else {
      documentId := GenerateDocumentId(request.content, request.metadata, sha256);
    }
    var processed := Preprocess(request.content);
    var extracted := ExtractMetadata(processed, request.metadata);
    var chunks := ChunkDocument(processed, request.chunkSize, request.chunkOverlap, extracted, settings);
    if chunks == [] {
      return Err(HttpError(400, NoChunksMessage));
    }
    assert documentId == DocumentIdFor(request, sha256) && chunks == PreparedChunks(request, settings);
    assert Ingest(old(StateOf(store)), name, request, settings, sha256, failingCommit)
        == Stored(withCollection, name, chunks, documentId, settings, failingCommit);
    r := StoreChunks(store, name, chunks, documentId, settings, failingCommit);
  }

  /** The chunk lists `ingest_document` builds and the `add_documents` call that stores them. */
  method StoreChunks(store: Store, name: string, chunks: seq<Chunk>, documentId: string, settings: Settings,
                     failingCommit: Option<nat>)
    returns (r: Result<IngestResponse, ApiError>)
    requires store.Valid()
    modifies store
    ensures store.Valid()
    ensures StateOf(store) == Stored(old(StateOf(store)), name, chunks, documentId, settings, failingCommit).state
    ensures r == Stored(old(StateOf(store)), name, chunks, documentId, settings, failingCommit).response
  {
    var texts := ChunkTexts(chunks);
    var metas := BuildChunkMetadata(chunks, documentId);
    var ids := ChunkIds(documentId, |chunks|);
    var result := store.AddDocuments(name, AddRequest(texts, None, metas, ids), settings.batchCommitSize, failingCommit);
    if result.Err? {
      return Err(HttpError(500, StoreErrorText(result.error)));
    }
    return Ok(IngestResponse(documentId, |result.value|, 0, "completed", 0));
  }

  /** The loop that builds `chunk_metadata`, one dictionary per chunk. */
  method BuildChunkMetadata(chunks: seq<Chunk>, documentId: string) returns (metas: seq<Meta>)
    ensures metas == StoredMetas(chunks, documentId)
  {
    metas := [];
    var i := 0;
    while i < |chunks|
      invariant 0 <= i <= |chunks|
      invariant |metas| == i
      invariant forall k :: 0 <= k < i ==> metas[k] == StoredChunkMeta(chunks[k], documentId, |chunks|)
    {
      var chunk := chunks[i];
      var chunkMeta := chunk.metadata["document_id" := VStr(documentId)]["chunk_index" := VInt(chunk.chunkIndex)]
                                     ["start_char" := VInt(chunk.startChar)]["end_char" := VInt(chunk.endChar)]
                                     ["total_chunks" := VInt(|chunks|)];
      metas := metas + [chunkMeta];
      i := i + 1;
    }
  }

  // ---------------------------------------------------------------------------
  // Ingesting a list of documents
  // ---------------------------------------------------------------------------

  /** `doc_request.document_id` as a JSON value. */
  function RequestIdValue(request: IngestRequest): Value {
    if request.documentId.Some? then VStr(request.documentId.value) else VNone
  }

  /** The error dictionary recorded when document `i` raises. */
  function ErrorRecord(i: nat, request: IngestRequest, e: ApiError): (m: Meta)
    ensures m.Keys == {"document_index", "document_id", "error"}
    ensures m["document_index"] == VInt(i) && m["document_id"] == RequestIdValue(request)
    ensures m["error"] == VStr(ErrorText(e))
  {
    map["document_index" := VInt(i), "document_id" := RequestIdValue(request), "error" := VStr(ErrorText(e))]
  }

  /** The position an error dictionary reports, -1 when it has none. */
  function ReportedIndex(m: Meta): int {
    if "document_index" in m && m["document_index"].VInt? then m["document_index"].i else -1
  }

  /**
   * The state of a loop over a batch: the store, the responses of the
   * documents that succeeded, the error dictionaries of those that failed,
   * and the `i + 1` of the last success, the value last sent as progress.
   */
  datatype Tally = Tally(state: StoreState, results: seq<IngestResponse>, errors: seq<Meta>, lastSuccess: Option<nat>)

  /**
   * The per-document loop from document `i` on: every document is ingested
   * in turn, whatever happened to the ones before; `fails(i)` is the
   * database's verdict on the commits of document `i`.
   */
  function IngestFrom(t: Tally, name: string, docs: seq<IngestRequest>, settings: Settings,
                      sha256: string -> HexDigest, fails: nat -> Option<nat>, i: nat): Tally
    requires i <= |docs|
    decreases |docs| - i
  {
    if i == |docs| then t
    else
      var out := Ingest(t.state, name, docs[i], settings, sha256, fails(i));
      IngestFrom(Advance(t, i, docs[i], out), name, docs, settings, sha256, fails, i + 1)
  }

  /** The tally after document `i`'s ingestion ended with `out`. */
  function Advance(t: Tally, i: nat, request: IngestRequest, out: Ingested): (r: Tally)
    ensures r.state == out.state
    ensures |r.results| + |r.errors| == |t.results| + |t.errors| + 1
    ensures t.results <= r.results && t.errors <= r.errors
    ensures out.response.Ok? ==> r == Tally(out.state, t.results + [out.response.value], t.errors, Some(i + 1))
    ensures out.response.Err? ==>
              r == Tally(out.state, t.results, t.errors + [ErrorRecord(i, request, out.response.error)], t.lastSuccess)
  {
    match out.response
    case Ok(response) => Tally(out.state, t.results + [response], t.errors, Some(i + 1))
    case Err(e) => Tally(out.state, t.results, t.errors + [ErrorRecord(i, request, e)], t.lastSuccess)
  }

  /** One turn of the loop: the rest of the run after document `i` is the run from `i + 1`. */
  lemma IngestFromStep(t: Tally, name: string, docs: seq<IngestRequest>, settings: Settings,
                       sha256: string -> HexDigest, fails: nat -> Option<nat>, i: nat, out: Ingested)
    requires i < |docs|
    requires out == Ingest(t.state, name, docs[i], settings, sha256, fails(i))
    ensures IngestFrom(t, name, docs, settings, sha256, fails, i)
            == IngestFrom(Advance(t, i, docs[i], out), name, docs, settings, sha256, fails, i + 1)
  {
  }

  /** The whole loop, from an empty tally. */
  function IngestAll(s: StoreState, name: string, docs: seq<IngestRequest>, settings: Settings,
                     sha256: string -> HexDigest, fails: nat -> Option<nat>): Tally
  {
    IngestFrom(Tally(s, [], [], None), name, docs, settings, sha256, fails, 0)
  }

  /** The error dictionaries from position `start` on report positions in `lo..hi-1`, strictly increasing. */
  predicate ReportsFrom(errors: seq<Meta>, start: nat, lo: int, hi: int) {
    && (forall j :: start <= j < |errors| ==> lo <= ReportedIndex(errors[j]) < hi)
    && (forall j :: start <= j && j + 1 < |errors| ==> ReportedIndex(errors[j]) < ReportedIndex(errors[j + 1]))
  }

  /**
   * A failing document does not stop the loop: from document `i` on, every
   * document adds exactly one response or one error dictionary, earlier
   * entries are kept, and the store's rows only grow.
   */
  lemma {:induction false} IngestFromAccounts(t: Tally, name: string, docs: seq<IngestRequest>, settings: Settings,
                                              sha256: string -> HexDigest, fails: nat -> Option<nat>, i: nat)
    returns (r: Tally)
    requires i <= |docs|
    ensures r == IngestFrom(t, name, docs, settings, sha256, fails, i)
    ensures |r.results| + |r.errors| == |t.results| + |t.errors| + (|docs| - i)
    ensures t.results <= r.results && t.errors <= r.errors && t.state.rows <= r.state.rows
    decreases |docs| - i
  {
    if i == |docs| {
      r := t;
    } else {
      var out := Ingest(t.state, name, docs[i], settings, sha256, fails(i));
      var next := Advance(t, i, docs[i], out);
      var j := i + 1;
      IngestFromStep(t, name, docs, settings, sha256, fails, i, out);
      r := IngestFromAccounts(next, name, docs, settings, sha256, fails, j);
    }
  }

  /**
   * The error dictionaries added from document `i` on report positions from
   * `i` on, in increasing order.
   */
  lemma {:induction false} IngestFromReports(t: Tally, name: string, docs: seq<IngestRequest>, settings: Settings,
                                             sha256: string -> HexDigest, fails: nat -> Option<nat>, i: nat)
    returns (r: Tally)
    requires i <= |docs|
    ensures r == IngestFrom(t, name, docs, settings, sha256, fails, i)
    ensures t.errors <= r.errors && ReportsFrom(r.errors, |t.errors|, i, |docs|)
    decreases |docs| - i
  {
    if i == |docs| {
      r := t;
    } else {
      var out := Ingest(t.state, name, docs[i], settings, sha256, fails(i));
      var next := Advance(t, i, docs[i], out);
      var j := i + 1;
      IngestFromStep(t, name, docs, settings, sha256, fails, i, out);
      r := IngestFromReports(next, name, docs, settings, sha256, fails, j);
      if out.response.Err? {
        var record := ErrorRecord(i, docs[i], out.response.error);
        assert next.errors == t.errors + [record];
        assert r.errors[|t.errors|] == record && ReportedIndex(record) == i;
      }
    }
  }

  /** The last progress value moves exactly when a document from `i` on succeeds. */
  lemma {:induction false} IngestFromLastSuccess(t: Tally, name: string, docs: seq<IngestRequest>, settings: Settings,
                                                 sha256: string -> HexDigest, fails: nat -> Option<nat>, i: nat)
    returns (r: Tally)
    requires i <= |docs|
    ensures r == IngestFrom(t, name, docs, settings, sha256, fails, i)
    ensures |r.results| == |t.results| ==> r.lastSuccess == t.lastSuccess
    ensures |r.results| > |t.results| ==> r.lastSuccess.Some? && i < r.lastSuccess.value <= |docs|
    ensures |t.results| <= |r.results|
    decreases |docs| - i
  {
    if i == |docs| {
      r := t;
    } else {
      var out := Ingest(t.state, name, docs[i], settings, sha256, fails(i));
      var next := Advance(t, i, docs[i], out);
      IngestFromStep(t, name, docs, settings, sha256, fails, i, out);
      r := IngestFromLastSuccess(next, name, docs, settings, sha256, fails, i + 1);
    }
  }

  /** One turn of the synchronous loop: ingest document `i` and record its response or its error. */
  method IngestNext(store: Store, name: string, request: IngestRequest, i: nat, settings: Settings,
                    sha256: string -> HexDigest, failingCommit: Option<nat>,
                    results: seq<IngestResponse>, errors: seq<Meta>, ghost last: Option<nat>)
    returns (results': seq<IngestResponse>, errors': seq<Meta>, ghost last': Option<nat>)
    requires store.Valid()
    modifies store
    ensures store.Valid()
    ensures Tally(StateOf(store), results', errors', last')
            == Advance(Tally(old(StateOf(store)), results, errors, last), i, request,
                       Ingest(old(StateOf(store)), name, request, settings, sha256, failingCommit))
  {
    var r := IngestDocument(store, name, request, settings, sha256, failingCommit);
    if r.Ok? {
      results', errors', last' := results + [r.value], errors, Some(i + 1);
    } else {
      results', errors', last' := results, errors + [ErrorRecord(i, request, r.error)], last;
    }
  }

  /** The ingestion loop of the synchronous batch mode. */
  method IngestEach(store: Store, name: string, docs: seq<IngestRequest>, settings: Settings,
                    sha256: string -> HexDigest, fails: nat -> Option<nat>)
    returns (results: seq<IngestResponse>, errors: seq<Meta>)
    requires store.Valid()
    modifies store
    ensures store.Valid()
    ensures var t := IngestAll(old(StateOf(store)), name, docs, settings, sha256, fails);
      StateOf(store) == t.state && results == t.results && errors == t.errors
  {
    ghost var goal := IngestAll(StateOf(store), name, docs, settings, sha256, fails);
    ghost var last: Option<nat> := None;
    results, errors := [], [];
    var i := 0;
    while i < |docs|
      invariant 0 <= i <= |docs|
      invariant store.Valid()
      invariant IngestFrom(Tally(StateOf(store), results, errors, last), name, docs, settings, sha256, fails, i) == goal
    {
      ghost var before := Tally(StateOf(store), results, errors, last);
      ghost var out := Ingest(before.state, name, docs[i], settings, sha256, fails(i));
      IngestFromStep(before, name, docs, settings, sha256, fails, i, out);
      results, errors, last := IngestNext(store, name, docs[i], i, settings, sha256, fails(i), results, errors, last);
      i := i + 1;
    }
  }

  // ---------------------------------------------------------------------------
  // batch_ingest_documents
  // ---------------------------------------------------------------------------

  function TooLargeMessage(n: int, max: int): string {
    "Batch too large: " + IntToString(n) + " documents (max " + IntToString(max) + "). "
    + "Use async processing mode for large batches."
  }

  function StatusEndpoint(jobId: string): string {
    "/api/v1/jobs/" + jobId + "/status"
  }

  /** The first line of the message of a response-model validation error reporting `k` errors. */
  function SchemaMessage(k: nat): string {
    IntToString(k) + (if k == 1 then " validation error" else " validation errors") + " for BatchIngestResponse"
  }

  /**
   * Constructing a `BatchIngestResponse` as declared: `job_id` and
   * `status_endpoint` are required strings, so a None in either is a
   * validation error naming how many fields failed.
   */
  function DeclaredResponse(reply: BatchResponse): (r: Result<BatchResponse, string>)
    ensures r.Ok? <==> reply.jobId.Some? && reply.statusEndpoint.Some?
    ensures r.Ok? ==> r.value == reply
  {
    var missing := (if reply.jobId.None? then 1 else 0) + (if reply.statusEndpoint.None? then 1 else 0);
    if missing == 0 then Ok(reply) else Err(SchemaMessage(missing))
  }

  /**
   * The same construction with `job_id` and `status_endpoint` declared
   * `Optional[str]`, as the synchronous mode needs: a reply is accepted as
   * it is, and a queued reply still names its job and its status endpoint.
   */
  function OptionalResponse(reply: BatchResponse): (r: Result<BatchResponse, string>)
    ensures r.Ok? && r.value == reply
    ensures DeclaredResponse(reply).Ok? ==> r == DeclaredResponse(reply)
  {
    Ok(reply)
  }

  /** The reply each mode builds once the batch is accepted. */
  function Reply(mode: Mode, jobId: string, n: int): BatchResponse {
    match mode
    case Async => BatchResponse(Some(jobId), n, Some(StatusEndpoint(jobId)), "queued")
    case Sync => BatchResponse(None, n, None, "completed")
  }

  /** The endpoint's answer for an accepted batch: a reply the response model rejects becomes a 500. */
  function Answer(reply: BatchResponse): Result<BatchResponse, ApiError> {
    match DeclaredResponse(reply)
    case Ok(r) => Ok(r)
    case Err(message) => Err(HttpError(500, message))
  }

  /**
   * As written, the synchronous mode never answers successfully: after every
   * document has been ingested, its reply fails the response model on both
   * of its None fields, and the handler turns that into a 500.
   */
  lemma SyncAlwaysFails(jobId: string, n: int)
    ensures Answer(Reply(Sync, jobId, n)) == Err(HttpError(500, SchemaMessage(2)))
    ensures Answer(Reply(Async, jobId, n)) == Ok(Reply(Async, jobId, n))
  {
  }

  /**
   * With the two fields optional, both modes' replies are accepted: the
   * synchronous one reports the batch completed, the queued one the job and
   * where to poll it.
   */
  lemma OptionalResponseAcceptsReplies(jobId: string, n: int)
    ensures OptionalResponse(Reply(Sync, jobId, n)) == Ok(BatchResponse(None, n, None, "completed"))
    ensures var r := OptionalResponse(Reply(Async, jobId, n));
      r.Ok? && r.value.jobId == Some(jobId) && r.value.statusEndpoint == Some(StatusEndpoint(jobId))
      && r.value.status == "queued"
  {
  }

  /**
   * `batch_ingest_documents`. A batch over the cap is refused with 400 in
   * either mode, and one for a missing collection with 404, before anything
   * changes. In async mode a QUEUED job is registered under the fresh
   * `jobId` and the reply names it; the background run is `ProcessBatchJob`.
   * In sync mode every document is ingested in turn and the answer is the
   * response model's verdict on the reply.
   */
  method BatchIngestDocuments(store: Store, jobs: Jobs.JobManager, name: string, documents: seq<IngestRequest>,
                              mode: Mode, settings: Settings, jobId: string, now: Jobs.Time,
                              sha256: string -> HexDigest, fails: nat -> Option<nat>)
    returns (r: Result<BatchResponse, ApiError>)
    requires store.Valid() && jobs.Valid()
    modifies store, jobs
    ensures store.Valid() && jobs.Valid()
    ensures |documents| > settings.maxBatchDocuments ==>
              r == Err(HttpError(400, TooLargeMessage(|documents|, settings.maxBatchDocuments)))
    ensures |documents| <= settings.maxBatchDocuments && name !in old(store.collections) ==>
              r == Err(HttpError(404, "Collection '" + name + "' not found"))
    ensures r.Err? && r.error.status != 500 ==>
              StateOf(store) == old(StateOf(store)) && jobs.jobs == old(jobs.jobs) && jobs.order == old(jobs.order)
    ensures |documents| <= settings.maxBatchDocuments && name in old(store.collections) && mode == Async ==>
              && r == Ok(Reply(Async, jobId, |documents|))
              && jobs.jobs == old(jobs.jobs)[jobId := Jobs.NewJob(jobId, name, now, |documents|)]
              && jobs.order == (if jobId in old(jobs.jobs) then old(jobs.order) else old(jobs.order) + [jobId])
              && StateOf(store) == old(StateOf(store))
    ensures |documents| <= settings.maxBatchDocuments && name in old(store.collections) && mode == Sync ==>
              && r == Answer(Reply(Sync, jobId, |documents|))
              && StateOf(store) == IngestAll(old(StateOf(store)), name, documents, settings, sha256, fails).state
              && jobs.jobs == old(jobs.jobs) && jobs.order == old(jobs.order)
    ensures jobs.runningTasks == old(jobs.runningTasks)
  {
    if |documents| > settings.maxBatchDocuments {
      return Err(HttpError(400, TooLargeMessage(|documents|, settings.maxBatchDocuments)));
    }
    if store.GetCollection(name).None? {
      return Err(HttpError(404, "Collection '" + name + "' not found"));
    }
    match mode {
      case Async =>
        var id := jobs.CreateBatchJob(|documents|, name, jobId, now);
        return Answer(Reply(Async, id, |documents|));
      case Sync =>
        var results, errors := IngestEach(store, name, documents, settings, sha256, fails);
        return Answer(Reply(Sync, jobId, |documents|));
    }
  }

  // ---------------------------------------------------------------------------
  // process_batch_job
  // ---------------------------------------------------------------------------

  /** The job map after `update_job_status(job_id, "processing")`. */
  function Started(jobs: map<string, Jobs.BatchJob>, jobId: string, now: Jobs.Time): map<string, Jobs.BatchJob> {
    if jobId in jobs then jobs[jobId := Jobs.StatusUpdated(jobs[jobId], Jobs.Processing, now)] else jobs
  }

  /** The job map after the progress updates of a run whose last success was `lastSuccess`. */
  function WithProgress(jobs: map<string, Jobs.BatchJob>, jobId: string, lastSuccess: Option<nat>, total: nat)
    : map<string, Jobs.BatchJob>
  {
    if jobId in jobs && lastSuccess.Some? then jobs[jobId := Jobs.Progressed(jobs[jobId], lastSuccess.value, total)]
    else jobs
  }

  /** A later progress update overwrites an earlier one. */
  lemma ProgressedTwice(job: Jobs.BatchJob, a: int, b: int, total: int)
    ensures Jobs.Progressed(Jobs.Progressed(job, a, total), b, total) == Jobs.Progressed(job, b, total)
  {
    var once := Jobs.Progressed(job, a, total);
    var twice := Jobs.Progressed(once, b, total);
    var direct := Jobs.Progressed(job, b, total);
    assert twice.(processedDocuments := job.processedDocuments, totalDocuments := job.totalDocuments,
                  progressPercentage := job.progressPercentage) == job;
    if total <= 0 {
      assert twice.progressPercentage == job.progressPercentage == direct.progressPercentage;
    }
  }

  /** A progress update for `p` after the updates of a run whose last success was `last`. */
  lemma ProgressStep(jobs: map<string, Jobs.BatchJob>, jobId: string, last: Option<nat>, p: nat, total: nat)
    ensures var m := WithProgress(jobs, jobId, last, total);
      (if jobId in m then m[jobId := Jobs.Progressed(m[jobId], p, total)] else m)
      == WithProgress(jobs, jobId, Some(p), total)
  {
    if jobId in jobs && last.Some? {
      ProgressedTwice(jobs[jobId], last.value, p, total);
    }
  }

  /** The `model_dump()` of a response, the dictionary `complete_job` expects. */
  function ResponseRecord(response: IngestResponse): (m: Meta)
    ensures m.Keys == {"document_id", "chunks_created", "embedding_count", "status", "processing_time_ms"}
    ensures m["document_id"] == VStr(response.documentId) && m["chunks_created"] == VInt(response.chunksCreated)
    ensures m["embedding_count"] == VInt(response.embeddingCount) && m["status"] == VStr(response.status)
    ensures m["processing_time_ms"] == VInt(response.processingTimeMs)
  {
    map["document_id" := VStr(response.documentId), "chunks_created" := VInt(response.chunksCreated),
        "embedding_count" := VInt(response.embeddingCount), "status" := VStr(response.status),
        "processing_time_ms" := VInt(response.processingTimeMs)]
  }

  function ResponseRecords(responses: seq<IngestResponse>): (ms: seq<Meta>)
    ensures |ms| == |responses|
    ensures forall i :: 0 <= i < |responses| ==> ms[i] == ResponseRecord(responses[i])
  {
    seq(|responses|, i requires 0 <= i < |responses| => ResponseRecord(responses[i]))
  }

  /** `str(e)` of the AttributeError raised by `result.get` on a response object. */
  const NoGetMessage: string := "'DocumentIngestResponse' object has no attribute 'get'"

  /**
   * The job map after `complete_job(job_id, results, errors)` as written,
   * with response objects in `results`: for a registered job with at least
   * one success the first `.get` raises before anything is recorded, and
   * the handler's `fail_job` marks the job FAILED with that message; with
   * no success, or no such job, the call goes through.
   */
  function FinishAsWritten(jobs: map<string, Jobs.BatchJob>, jobId: string, results: seq<IngestResponse>,
                           errors: seq<Meta>, now: Jobs.Time): map<string, Jobs.BatchJob>
  {
    if jobId !in jobs then jobs
    else if results != [] then jobs[jobId := Jobs.FailedJob(jobs[jobId], NoGetMessage, now)]
    else jobs[jobId := Jobs.CompletedJob(jobs[jobId], [], errors, now)]
  }

  /** The job map after `complete_job` given the responses as dictionaries. */
  function FinishFixed(jobs: map<string, Jobs.BatchJob>, jobId: string, results: seq<IngestResponse>,
                       errors: seq<Meta>, now: Jobs.Time): map<string, Jobs.BatchJob>
  {
    if jobId !in jobs then jobs
    else jobs[jobId := Jobs.CompletedJob(jobs[jobId], ResponseRecords(results), errors, now)]
  }

  /**
   * As written, a registered job in which any document succeeds ends FAILED
   * with the AttributeError's text, no result is recorded and no success is
   * counted, although the documents are stored.
   */
  lemma AsWrittenFailsAfterSuccess(jobs: map<string, Jobs.BatchJob>, jobId: string, results: seq<IngestResponse>,
                                   errors: seq<Meta>, now: Jobs.Time)
    requires jobId in jobs && results != []
    ensures var after := FinishAsWritten(jobs, jobId, results, errors, now);
      && jobId in after
      && after[jobId].status == Jobs.Failed && after[jobId].errorMessage == Some(NoGetMessage)
      && after[jobId].results == jobs[jobId].results
      && after[jobId].successfulDocuments == jobs[jobId].successfulDocuments
  {
  }

  /**
   * Given dictionaries, the job completes: one result per success, numbered
   * from 0 and naming its document and chunk count, then one per error,
   * and the counters and the processed count match the run.
   */
  lemma FixedCompletes(jobs: map<string, Jobs.BatchJob>, jobId: string, results: seq<IngestResponse>,
                       errors: seq<Meta>, now: Jobs.Time)
    requires jobId in jobs
    ensures var after := FinishFixed(jobs, jobId, results, errors, now);
      var before := jobs[jobId];
      && jobId in after
      && after[jobId].status == Jobs.Completed
      && after[jobId].successfulDocuments == before.successfulDocuments + |results|
      && after[jobId].failedDocuments == before.failedDocuments + |errors|
      && after[jobId].processedDocuments == |results| + |errors|
      && |after[jobId].results| == |before.results| + |results| + |errors|
      && forall i :: 0 <= i < |results| ==>
           var entry := after[jobId].results[|before.results| + i];
           && entry.documentId == VStr(results[i].documentId)
           && entry.documentIndex == VInt(i)
           && entry.chunksCreated == VInt(results[i].chunksCreated)
           && entry.status == "completed"
  {
    var before := jobs[jobId];
    var after := FinishFixed(jobs, jobId, results, errors, now);
    var records := ResponseRecords(results);
    var successes := Jobs.SuccessResults(records, |records|);
    assert after[jobId].results == before.results + successes + Jobs.FailureResults(errors, |errors|);
    forall i | 0 <= i < |results|
      ensures after[jobId].results[|before.results| + i] == Jobs.SuccessResult(records[i], i)
    {
      assert after[jobId].results[|before.results| + i] == successes[i];
    }
  }

  /**
   * The loop of `process_batch_job`: each document is ingested; a success
   * records the response and reports `i + 1` of `len(documents)` as the
   * job's progress, a failure records its error dictionary.
   */
  method IngestWithProgress(store: Store, jobs: Jobs.JobManager, jobId: string, name: string, docs: seq<IngestRequest>,
                            settings: Settings, sha256: string -> HexDigest, fails: nat -> Option<nat>)
    returns (results: seq<IngestResponse>, errors: seq<Meta>)
    requires store.Valid() && jobs.Valid()
    modifies store, jobs
    ensures store.Valid() && jobs.Valid()
    ensures var t := IngestAll(old(StateOf(store)), name, docs, settings, sha256, fails);
      && StateOf(store) == t.state && results == t.results && errors == t.errors
      && jobs.jobs == WithProgress(old(jobs.jobs), jobId, t.lastSuccess, |docs|)
    ensures jobs.order == old(jobs.order) && jobs.runningTasks == old(jobs.runningTasks)
  {
    ghost var goal := IngestAll(StateOf(store), name, docs, settings, sha256, fails);
    ghost var initial := jobs.jobs;
    ghost var last: Option<nat> := None;
    results, errors := [], [];
    var i := 0;
    while i < |docs|
      invariant 0 <= i <= |docs|
      invariant store.Valid() && jobs.Valid()
      invariant IngestFrom(Tally(StateOf(store), results, errors, last), name, docs, settings, sha256, fails, i) == goal
      invariant jobs.jobs == WithProgress(initial, jobId, last, |docs|)
      invariant jobs.order == old(jobs.order) && jobs.runningTasks == old(jobs.runningTasks)
    {
      ghost var before := Tally(StateOf(store), results, errors, last);
      ghost var out := Ingest(before.state, name, docs[i], settings, sha256, fails(i));
      IngestFromStep(before, name, docs, settings, sha256, fails, i, out);
      results, errors, last := IngestAndReport(store, jobs, jobId, name, docs, settings, sha256, fails, i,
                                               results, errors, last, initial);
      i := i + 1;
    }
  }

  /** One turn of `process_batch_job`'s loop: document `i` is ingested, and a success is reported as progress. */
  method IngestAndReport(store: Store, jobs: Jobs.JobManager, jobId: string, name: string, docs: seq<IngestRequest>,
                         settings: Settings, sha256: string -> HexDigest, fails: nat -> Option<nat>, i: nat,
                         results: seq<IngestResponse>, errors: seq<Meta>, ghost last: Option<nat>,
                         ghost initial: map<string, Jobs.BatchJob>)
    returns (results': seq<IngestResponse>, errors': seq<Meta>, ghost last': Option<nat>)
    requires i < |docs| && store.Valid() && jobs.Valid()
    requires jobs.jobs == WithProgress(initial, jobId, last, |docs|)
    modifies store, jobs
    ensures store.Valid() && jobs.Valid()
    ensures Tally(StateOf(store), results', errors', last')
            == Advance(Tally(old(StateOf(store)), results, errors, last), i, docs[i],
                       Ingest(old(StateOf(store)), name, docs[i], settings, sha256, fails(i)))
    ensures jobs.jobs == WithProgress(initial, jobId, last', |docs|)
    ensures jobs.order == old(jobs.order) && jobs.runningTasks == old(jobs.runningTasks)
  {
    var r := IngestDocument(store, name, docs[i], settings, sha256, fails(i));
    if r.Ok? {
      results', errors' := results + [r.value], errors;
      ProgressStep(initial, jobId, last, i + 1, |docs|);
      jobs.UpdateJobProgress(jobId, i + 1, |docs|);
      last' := Some(i + 1);
    } else {
      results', errors', last' := results, errors + [ErrorRecord(i, docs[i], r.error)], last;
    }
  }

  /**
   * `process_batch_job` as written: the job moves to PROCESSING, every
   * document is ingested with progress after each success, and the job is
   * finished by `complete_job` with the response objects, which fails the
   * job as soon as one document succeeded.
   */
  method ProcessBatchJob(store: Store, jobs: Jobs.JobManager, jobId: string, docs: seq<IngestRequest>, name: string,
                         settings: Settings, sha256: string -> HexDigest, fails: nat -> Option<nat>,
                         started: Jobs.Time, finished: Jobs.Time)
    requires store.Valid() && jobs.Valid()
    modifies store, jobs
    ensures store.Valid() && jobs.Valid()
    ensures var t := IngestAll(old(StateOf(store)), name, docs, settings, sha256, fails);
      && StateOf(store) == t.state
      && jobs.jobs == FinishAsWritten(WithProgress(Started(old(jobs.jobs), jobId, started), jobId, t.lastSuccess, |docs|),
                                      jobId, t.results, t.errors, finished)
    ensures jobs.order == old(jobs.order)
    ensures jobs.runningTasks == if jobId in old(jobs.jobs) then old(jobs.runningTasks) - {jobId} else old(jobs.runningTasks)
  {
    assert Jobs.ParseStatus("processing") == Some(Jobs.Processing);
    jobs.UpdateJobStatus(jobId, "processing", started);
    assert jobs.jobs == Started(old(jobs.jobs), jobId, started);
    var results, errors := IngestWithProgress(store, jobs, jobId, name, docs, settings, sha256, fails);
    if jobId in jobs.jobs && results != [] {
      // `complete_job` raises on the first response; the handler fails the job with the exception's text.
      jobs.FailJob(jobId, NoGetMessage, finished);
    } else {
      jobs.CompleteJob(jobId, [], errors, finished);
    }
  }

  /** `process_batch_job` with the responses handed to `complete_job` as dictionaries. */
  method ProcessBatchJobFixed(store: Store, jobs: Jobs.JobManager, jobId: string, docs: seq<IngestRequest>, name: string,
                              settings: Settings, sha256: string -> HexDigest, fails: nat -> Option<nat>,
                              started: Jobs.Time, finished: Jobs.Time)
    requires store.Valid() && jobs.Valid()
    modifies store, jobs
    ensures store.Valid() && jobs.Valid()
    ensures var t := IngestAll(old(StateOf(store)), name, docs, settings, sha256, fails);
      && StateOf(store) == t.state
      && jobs.jobs == FinishFixed(WithProgress(Started(old(jobs.jobs), jobId, started), jobId, t.lastSuccess, |docs|),
                                  jobId, t.results, t.errors, finished)
    ensures jobs.order == old(jobs.order)
    ensures jobs.runningTasks == if jobId in old(jobs.jobs) then old(jobs.runningTasks) - {jobId} else old(jobs.runningTasks)
  {
    assert Jobs.ParseStatus("processing") == Some(Jobs.Processing);
    jobs.UpdateJobStatus(jobId, "processing", started);
    assert jobs.jobs == Started(old(jobs.jobs), jobId, started);
    var results, errors := IngestWithProgress(store, jobs, jobId, name, docs, settings, sha256, fails);
    jobs.CompleteJob(jobId, ResponseRecords(results), errors, finished);
  }

  /**
   * A registered job run by the fixed `process_batch_job` ends COMPLETED
   * with every document accounted for: one result per success, one per
   * failure, `processed_documents` equal to the batch size.
   */
  lemma FixedJobAccountsForEveryDocument(s: StoreState, jobs: map<string, Jobs.BatchJob>, jobId: string,
                                         docs: seq<IngestRequest>, name: string, settings: Settings,
                                         sha256: string -> HexDigest, fails: nat -> Option<nat>,
                                         started: Jobs.Time, finished: Jobs.Time)
    requires jobId in jobs
    ensures var t := IngestAll(s, name, docs, settings, sha256, fails);
      var after := FinishFixed(WithProgress(Started(jobs, jobId, started), jobId, t.lastSuccess, |docs|),
                               jobId, t.results, t.errors, finished);
      && jobId in after
      && after[jobId].status == Jobs.Completed
      && after[jobId].processedDocuments == |docs|
      && after[jobId].successfulDocuments == jobs[jobId].successfulDocuments + |t.results|
      && after[jobId].failedDocuments == jobs[jobId].failedDocuments + |t.errors|
      && ReportsFrom(t.errors, 0, 0, |docs|)
  {
    var t := IngestAll(s, name, docs, settings, sha256, fails);
    var counted := IngestFromAccounts(Tally(s, [], [], None), name, docs, settings, sha256, fails, 0);
    var reported := IngestFromReports(Tally(s, [], [], None), name, docs, settings, sha256, fails, 0);
    var progressed := WithProgress(Started(jobs, jobId, started), jobId, t.lastSuccess, |docs|);
    FixedCompletes(progressed, jobId, t.results, t.errors, finished);
  }
}
