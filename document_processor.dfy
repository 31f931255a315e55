/**
 * The document processor (src/core/document_processor.py): content-hash
 * document ids, the overlapping word-boundary chunker, validation,
 * preprocessing and metadata extraction.
 *
 * The chunker is given twice. `ChunkDocumentBounded` is the loop exactly as
 * the service runs it, driven by a fuel bound because that loop does not
 * always stop: with a positive effective overlap it never stops at all
 * (`AsWrittenNeverReturns`). `ChunkDocument` is the same loop with the exits
 * its guard evidently intends; it always stops, and the ingestion pipeline of
 * this model uses it.
 */
module DocumentProcessor {
  import opened Common
  import opened Text

  // ---------------------------------------------------------------------------
  // Document identity
  // ---------------------------------------------------------------------------

  predicate IsHexDigit(c: char) {
    '0' <= c <= '9' || 'a' <= c <= 'f'
  }

  /** A SHA-256 hex digest as `hexdigest()` prints it: 64 lower-case hex digits. */
  type HexDigest = d: string | |d| == 64 && forall i :: 0 <= i < |d| ==> IsHexDigit(d[i])
    witness seq(64, i => '0')

  /** The metadata keys that take part in the document id, in hashing order. */
  const RelevantKeys: seq<string> := ["title", "source", "author", "type"]

  /** What one relevant key contributes to the hash input: `_key:value`, or nothing when absent. */
  function KeyPiece(metadata: Meta, key: string): string {
    if key in metadata then "_" + key + ":" + Render(metadata[key]) else ""
  }

  /** The contributions of the first `n` relevant keys, in order. */
  function KeySuffix(metadata: Meta, n: nat): string
    requires n <= |RelevantKeys|
  {
    if n == 0 then "" else KeySuffix(metadata, n - 1) + KeyPiece(metadata, RelevantKeys[n - 1])
  }

  /** The string that is hashed: the content followed by the relevant keys' pieces. */
  function HashInput(content: string, metadata: Meta): string {
    content + KeySuffix(metadata, |RelevantKeys|)
  }

  /**
   * `generate_document_id`: the first 16 hex digits of SHA-256 over the hash
   * input. SHA-256 itself is the parameter `sha256` (its internals are not
   * modelled); an absent or empty metadata dictionary adds nothing.
   */
  method GenerateDocumentId(content: string, metadata: Meta, sha256: string -> HexDigest) returns (id: string)
    ensures id == sha256(HashInput(content, metadata))[..16]
    ensures |id| == 16 && forall i :: 0 <= i < 16 ==> IsHexDigit(id[i])
  {
    var hashInput := content;
    var k := 0;
    while k < |RelevantKeys|
      invariant 0 <= k <= |RelevantKeys|
      invariant hashInput == content + KeySuffix(metadata, k)
    {
      var key := RelevantKeys[k];
      ghost var done := KeySuffix(metadata, k);
      if key in metadata {
        var piece := "_" + key + ":" + Render(metadata[key]);
        assert KeySuffix(metadata, k + 1) == done + piece;
        ConcatAssoc(content, done, piece);
        hashInput := hashInput + piece;
      } else {
        assert KeySuffix(metadata, k + 1) == done + [];
      }
      k := k + 1;
    }
    var digest := sha256(hashInput);
    id := digest[..16];
  }

  lemma ConcatAssoc(a: string, b: string, c: string)
    ensures (a + b) + c == a + (b + c)
  {
  }

  /** Metadata keys other than title, source, author and type do not influence the id. */
  lemma {:induction false} HashInputIgnoresOtherKeys(content: string, m1: Meta, m2: Meta, n: nat)
    requires n <= |RelevantKeys|
    requires forall key :: key in RelevantKeys ==> (key in m1 <==> key in m2)
    requires forall key :: key in RelevantKeys && key in m1 ==> m1[key] == m2[key]
    ensures KeySuffix(m1, n) == KeySuffix(m2, n)
  {
    if n > 0 {
      HashInputIgnoresOtherKeys(content, m1, m2, n - 1);
      var key := RelevantKeys[n - 1];
      assert key in RelevantKeys;
      assert KeyPiece(m1, key) == KeyPiece(m2, key);
    }
  }

  /** Two documents with the same relevant metadata but different content are hashed from different strings. */
  lemma HashInputSeparatesContent(c1: string, c2: string, metadata: Meta)
    requires HashInput(c1, metadata) == HashInput(c2, metadata)
    ensures c1 == c2
  {
    var suffix := KeySuffix(metadata, |RelevantKeys|);
    assert |c1| == |c2|;
    assert c1 == HashInput(c1, metadata)[..|c1|];
    assert c2 == HashInput(c2, metadata)[..|c2|];
  }

  // ---------------------------------------------------------------------------
  // Chunks and the chunker's configuration
  // ---------------------------------------------------------------------------

  /** `DocumentChunk`: trimmed text, its position in the chunk list, the window it came from, its metadata. */
  datatype Chunk = Chunk(content: string, chunkIndex: nat, startChar: int, endChar: int, metadata: Meta)

  /** The chunk size and overlap the loop runs with. */
  datatype ChunkConfig = ChunkConfig(size: int, overlap: int)

  /**
   * `chunk_size or default` and `overlap or default` (None and 0 both fall back),
   * then `min(overlap, chunk_size // 2)`. Python's `//` floors; with the
   * divisor 2 Dafny's `/` gives the same quotient for every size, negative too.
   */
  function EffectiveConfig(chunkSize: Option<int>, overlap: Option<int>, settings: Settings): (c: ChunkConfig)
    ensures c.size == if chunkSize == None || chunkSize == Some(0) then settings.documentChunkSize else chunkSize.value
    ensures c.overlap <= c.size / 2
    ensures var asked := if overlap == None || overlap == Some(0) then settings.documentChunkOverlap else overlap.value;
            c.overlap == Min(asked, c.size / 2)
  {
    var size := if chunkSize == None || chunkSize == Some(0) then settings.documentChunkSize else chunkSize.value;
    var ov := if overlap == None || overlap == Some(0) then settings.documentChunkOverlap else overlap.value;
    ChunkConfig(size, Min(ov, size / 2))
  }

  // ---------------------------------------------------------------------------
  // The word-boundary walk-back
  // ---------------------------------------------------------------------------

  /** The characters `_find_word_boundary` accepts as a place to cut. */
  predicate IsBreak(c: char) {
    c in " \n\t.,;:!?"
  }

  /** The lowest position the walk-back may look at, exclusive. */
  function WindowFloor(position: int): int {
    Max(0, position - 100)
  }

  /** The walk-back scanning downward from `i`: one past the first break found, else `position`. */
  function BoundaryFrom(text: string, position: int, i: int): (r: int)
    requires i <= position < |text|
    ensures r == position || WindowFloor(position) + 1 < r <= i + 1
    decreases i
  {
    if i <= WindowFloor(position) then position
    else if IsBreak(text[i]) then i + 1
    else BoundaryFrom(text, position, i - 1)
  }

  /** `_find_word_boundary(text, position)`, as a function. */
  function WordBoundary(text: string, position: int): (r: int)
    requires position < |text|
    ensures r == position || WindowFloor(position) + 1 < r <= position + 1
  {
    BoundaryFrom(text, position, position)
  }

  lemma {:induction false} BoundaryFromIsLastBreak(text: string, p: int, i: int)
    requires i <= p < |text|
    ensures var r := BoundaryFrom(text, p, i);
      || (r == p && forall j :: WindowFloor(p) < j <= i ==> !IsBreak(text[j]))
      || (WindowFloor(p) < r - 1 <= i && IsBreak(text[r - 1]) && forall j :: r - 1 < j <= i ==> !IsBreak(text[j]))
    decreases i
  {
    if i > WindowFloor(p) && !IsBreak(text[i]) {
      BoundaryFromIsLastBreak(text, p, i - 1);
    }
  }

  /**
   * The walk-back returns `i + 1` for the largest `i` in `(max(0, p - 100), p]`
   * holding a break character, and `p` itself when there is none.
   */
  lemma WordBoundaryIsLastBreak(text: string, p: int)
    requires p < |text|
    ensures var r := WordBoundary(text, p);
      || (r == p && forall j :: WindowFloor(p) < j <= p ==> !IsBreak(text[j]))
      || (WindowFloor(p) < r - 1 <= p && IsBreak(text[r - 1]) && forall j :: r - 1 < j <= p ==> !IsBreak(text[j]))
  {
    BoundaryFromIsLastBreak(text, p, p);
  }

  /** `_find_word_boundary`: the backward `for` loop with its early return. */
  method FindWordBoundary(text: string, position: int) returns (r: int)
    requires position < |text|
    ensures r == WordBoundary(text, position)
  {
    var i := position;
    while i > WindowFloor(position)
      invariant i <= position
      invariant BoundaryFrom(text, position, i) == WordBoundary(text, position)
      decreases i
    {
      if IsBreak(text[i]) {
        return i + 1;
      }
      i := i - 1;
    }
    return position;
  }

  // ---------------------------------------------------------------------------
  // Windows and what one pass emits
  // ---------------------------------------------------------------------------

  /** The slice `[start, end)` of the content that one pass of the loop looks at. */
  datatype Window = Window(start: int, end: int)

  /**
   * Where a window that starts at `start` ends: `min(start + size, len)`,
   * walked back to a word boundary unless it is the end of the content.
   */
  function WindowEnd(content: string, start: int, size: int): (e: int)
    ensures e <= |content|
    ensures start + size < |content| ==> e == WordBoundary(content, start + size)
    ensures start + size < |content| ==> e == start + size || WindowFloor(start + size) + 1 < e
    ensures start + size >= |content| ==> e == |content|
  {
    var e := Min(start + size, |content|);
    if e < |content| then WordBoundary(content, e) else e
  }

  /** `start = end - overlap`: where the pass after the one starting at `start` starts. */
  function NextStart(content: string, cfg: ChunkConfig, start: int): int {
    WindowEnd(content, start, cfg.size) - cfg.overlap
  }

  /** The caller's metadata overridden by the three computed fields. */
  function ChunkMetadata(meta: Meta, text: string, index: nat, end: int, contentLength: nat): Meta {
    meta["chunk_size" := VInt(|text|)]["is_first_chunk" := VBool(index == 0)]["is_last_chunk" := VBool(end >= contentLength)]
  }

  /** What the pass over window `w` appends: its stripped text as chunk `index`, unless that is empty. */
  function Emit(content: string, meta: Meta, w: Window, index: nat): seq<Chunk> {
    var text := Strip(Slice(content, w.start, w.end));
    if text == [] then [] else [Chunk(text, index, w.start, w.end, ChunkMetadata(meta, text, index, w.end, |content|))]
  }

  /** The chunk list after the passes over `ws`, starting from `chunks`. */
  function EmitAll(content: string, meta: Meta, ws: seq<Window>, chunks: seq<Chunk>): seq<Chunk>
    decreases |ws|
  {
    if ws == [] then chunks else EmitAll(content, meta, ws[1..], chunks + Emit(content, meta, ws[0], |chunks|))
  }

  /** Chunk number `k` is the stripped text of its own window, non-empty, with the computed metadata. */
  ghost predicate WellFormedChunk(content: string, meta: Meta, c: Chunk, k: nat) {
    && c.chunkIndex == k
    && c.content == Strip(Slice(content, c.startChar, c.endChar))
    && c.content != []
    && c.metadata == ChunkMetadata(meta, c.content, k, c.endChar, |content|)
  }

  /** Indices 0, 1, 2, ... without gaps, every chunk well formed. */
  ghost predicate WellFormedChunks(content: string, meta: Meta, chunks: seq<Chunk>) {
    forall k :: 0 <= k < |chunks| ==> WellFormedChunk(content, meta, chunks[k], k)
  }

  /** The computed fields a chunk's metadata carries: its length, and whether it is the first and the last. */
  lemma ChunkMetadataFields(content: string, meta: Meta, c: Chunk, k: nat)
    requires WellFormedChunk(content, meta, c, k)
    ensures c.metadata["chunk_size"] == VInt(|c.content|)
    ensures c.metadata["is_first_chunk"] == VBool(k == 0)
    ensures c.metadata["is_last_chunk"] == VBool(c.endChar >= |content|)
    ensures forall key :: key in meta && key !in {"chunk_size", "is_first_chunk", "is_last_chunk"} ==>
              key in c.metadata && c.metadata[key] == meta[key]
  {
  }

  /** Emission keeps the chunk list well formed, whatever the windows. */
  lemma {:induction false} EmitAllWellFormed(content: string, meta: Meta, ws: seq<Window>, chunks: seq<Chunk>)
    requires WellFormedChunks(content, meta, chunks)
    ensures WellFormedChunks(content, meta, EmitAll(content, meta, ws, chunks))
    decreases |ws|
  {
    if ws != [] {
      var next := chunks + Emit(content, meta, ws[0], |chunks|);
      assert WellFormedChunks(content, meta, next);
      EmitAllWellFormed(content, meta, ws[1..], next);
    }
  }

  /** Emission only ever appends. */
  lemma {:induction false} EmitAllPrefix(content: string, meta: Meta, ws: seq<Window>, chunks: seq<Chunk>)
    ensures var r := EmitAll(content, meta, ws, chunks); |chunks| <= |r| && r[..|chunks|] == chunks
    decreases |ws|
  {
    if ws != [] {
      var next := chunks + Emit(content, meta, ws[0], |chunks|);
      EmitAllPrefix(content, meta, ws[1..], next);
      assert next[..|chunks|] == chunks;
    }
  }

  /** Every chunk comes from one of the windows. */
  lemma {:induction false} EmitAllFromWindows(content: string, meta: Meta, ws: seq<Window>, chunks: seq<Chunk>, i: nat)
    requires |chunks| <= i < |EmitAll(content, meta, ws, chunks)|
    ensures var c := EmitAll(content, meta, ws, chunks)[i];
      exists j :: 0 <= j < |ws| && c.startChar == ws[j].start && c.endChar == ws[j].end
    decreases |ws|
  {
    var r := EmitAll(content, meta, ws, chunks);
    var c := r[i];
    var e := Emit(content, meta, ws[0], |chunks|);
    var next := chunks + e;
    if i < |next| {
      EmitAllPrefix(content, meta, ws[1..], next);
      assert r[i] == next[i] == e[0];
      assert c.startChar == ws[0].start && c.endChar == ws[0].end;
    } else {
      EmitAllFromWindows(content, meta, ws[1..], next, i);
      var j :| 0 <= j < |ws[1..]| && c.startChar == ws[1..][j].start && c.endChar == ws[1..][j].end;
      assert ws[1..][j] == ws[j + 1];
    }
  }

  /** A window whose stripped text is not empty yields a chunk with that window. */
  lemma {:induction false} EmitAllHits(content: string, meta: Meta, ws: seq<Window>, chunks: seq<Chunk>, j: nat)
    requires j < |ws| && Strip(Slice(content, ws[j].start, ws[j].end)) != []
    ensures var r := EmitAll(content, meta, ws, chunks);
      exists i :: 0 <= i < |r| && r[i].startChar == ws[j].start && r[i].endChar == ws[j].end
    decreases |ws|
  {
    var next := chunks + Emit(content, meta, ws[0], |chunks|);
    if j == 0 {
      EmitAllPrefix(content, meta, ws[1..], next);
      assert EmitAll(content, meta, ws, chunks)[|chunks|] == next[|chunks|];
    } else {
      assert ws[1..][j - 1] == ws[j];
      EmitAllHits(content, meta, ws[1..], next, j - 1);
    }
  }

  predicate InWindow(w: Window, k: int) {
    w.start <= k < w.end
  }

  /** Windows with strictly increasing starts, each start non-negative and below the content's length. */
  ghost predicate OrderedWindows(content: string, ws: seq<Window>) {
    && (forall i, j :: 0 <= i < j < |ws| ==> ws[i].start < ws[j].start)
    && (forall i :: 0 <= i < |ws| ==> 0 <= ws[i].start < |content| && ws[i].end <= |content|)
  }

  /**
   * The body of the chunking loop up to the new start: the window's end,
   * walked back to a word boundary unless it is the end of the content, and
   * the chunk appended when the window's stripped text is not empty.
   */
  method ChunkPass(content: string, size: int, meta: Meta, start: int, chunks: seq<Chunk>, chunkIndex: nat)
    returns (end: int, chunks': seq<Chunk>, chunkIndex': nat)
    requires chunkIndex == |chunks|
    ensures end == WindowEnd(content, start, size)
    ensures chunks' == chunks + Emit(content, meta, Window(start, end), |chunks|)
    ensures chunkIndex' == |chunks'|
  {
    end := Min(start + size, |content|);
    if end < |content| {
      end := FindWordBoundary(content, end);
    }
    var text := Strip(Slice(content, start, end));
    chunks', chunkIndex' := chunks, chunkIndex;
    if text != [] {
      chunks' := chunks + [Chunk(text, chunkIndex, start, end, ChunkMetadata(meta, text, chunkIndex, end, |content|))];
      chunkIndex' := chunkIndex + 1;
    }
  }

  // ---------------------------------------------------------------------------
  // The loop as the service runs it
  // ---------------------------------------------------------------------------

  /**
   * The windows the loop visits from `start`, allowed at most `fuel` passes
   * (None when the fuel runs out): it stops when `start >= len(content)` and
   * after a pass whose next start is not below its end (`if start >= end: break`).
   */
  function WindowsAsWritten(content: string, cfg: ChunkConfig, start: int, fuel: nat): Option<seq<Window>>
    decreases fuel
  {
    if start >= |content| then Some([])
    else if fuel == 0 then None
    else
      var w := Window(start, WindowEnd(content, start, cfg.size));
      var next := NextStart(content, cfg, start);
      if next >= w.end then Some([w])
      else match WindowsAsWritten(content, cfg, next, fuel - 1)
        case None => None
        case Some(ws) => Some([w] + ws)
  }

  /** The loop resumed from `start` with `chunks` so far, allowed at most `fuel` passes. */
  function RunAsWritten(content: string, cfg: ChunkConfig, meta: Meta, start: int, chunks: seq<Chunk>, fuel: nat)
    : Option<seq<Chunk>>
  {
    match WindowsAsWritten(content, cfg, start, fuel)
    case None => None
    case Some(ws) => Some(EmitAll(content, meta, ws, chunks))
  }

  /** `chunk_document` as written, allowed at most `fuel` passes. */
  function ChunkDocumentAsWritten(content: string, chunkSize: Option<int>, overlap: Option<int>, meta: Meta,
                                  settings: Settings, fuel: nat): Option<seq<Chunk>>
  {
    if IsBlank(content) then Some([])
    else RunAsWritten(content, EffectiveConfig(chunkSize, overlap, settings), meta, 0, [], fuel)
  }

  /** One pass of the loop body, in terms of `RunAsWritten`. */
  lemma RunAsWrittenStep(content: string, cfg: ChunkConfig, meta: Meta, start: int, chunks: seq<Chunk>, fuel: nat)
    requires start < |content| && fuel > 0
    ensures var w := Window(start, WindowEnd(content, start, cfg.size));
      var emitted := chunks + Emit(content, meta, w, |chunks|);
      var next := NextStart(content, cfg, start);
      RunAsWritten(content, cfg, meta, start, chunks, fuel)
        == if next >= w.end then Some(emitted) else RunAsWritten(content, cfg, meta, next, emitted, fuel - 1)
  {
    var w := Window(start, WindowEnd(content, start, cfg.size));
    var next := NextStart(content, cfg, start);
    if next < w.end {
      match WindowsAsWritten(content, cfg, next, fuel - 1)
      case None =>
      case Some(ws) => assert ([w] + ws)[1..] == ws;
    } else {
      assert WindowsAsWritten(content, cfg, start, fuel) == Some([w]);
      assert EmitAll(content, meta, [w], chunks) == EmitAll(content, meta, [], chunks + Emit(content, meta, w, |chunks|));
    }
  }

  /**
   * `chunk_document` exactly as the service runs it, stopped after `fuel`
   * passes (None) so that the model does not presume the loop ends.
   */
  method ChunkDocumentBounded(content: string, chunkSize: Option<int>, overlap: Option<int>, meta: Meta,
                              settings: Settings, fuel: nat) returns (r: Option<seq<Chunk>>)
    ensures r == ChunkDocumentAsWritten(content, chunkSize, overlap, meta, settings, fuel)
  {
    StripEmptyIffBlank(content);
    if Strip(content) == [] {
      return Some([]);
    }
    var cfg := EffectiveConfig(chunkSize, overlap, settings);
    r := ChunkLoopBounded(content, cfg, meta, fuel);
  }

  /** The `while start < len(content)` loop as written, from `start = 0`, allowed at most `fuel` passes. */
  method ChunkLoopBounded(content: string, cfg: ChunkConfig, meta: Meta, fuel: nat) returns (r: Option<seq<Chunk>>)
    ensures r == RunAsWritten(content, cfg, meta, 0, [], fuel)
  {
    var chunks: seq<Chunk> := [];
    var start := 0;
    var chunkIndex := 0;
    var passes := fuel;
    while start < |content|
      invariant chunkIndex == |chunks|
      invariant RunAsWritten(content, cfg, meta, start, chunks, passes) == RunAsWritten(content, cfg, meta, 0, [], fuel)
      decreases passes
    {
      if passes == 0 {
        assert WindowsAsWritten(content, cfg, start, passes) == None;
        return None;
      }
      RunAsWrittenStep(content, cfg, meta, start, chunks, passes);
      var end;
      end, chunks, chunkIndex := ChunkPass(content, cfg.size, meta, start, chunks, chunkIndex);
      ghost var before := start;
      start := end - cfg.overlap;
      passes := passes - 1;
      if start >= end {
        return Some(chunks);
      }
      assert start == NextStart(content, cfg, before);
    }
    assert WindowsAsWritten(content, cfg, start, passes) == Some([]);
    return Some(chunks);
  }

  /** With a positive overlap, no amount of fuel is enough: the loop never returns. */
  lemma {:induction false} WindowsAsWrittenDiverge(content: string, cfg: ChunkConfig, start: int, fuel: nat)
    requires start < |content| && cfg.overlap > 0
    ensures WindowsAsWritten(content, cfg, start, fuel) == None
    decreases fuel
  {
    if fuel > 0 {
      WindowsAsWrittenDiverge(content, cfg, NextStart(content, cfg, start), fuel - 1);
    }
  }

  /**
   * Once a window reaches the end of the content, the next pass starts at
   * `len - overlap`; the pass from there sees the same window and returns to
   * the same start, so the loop re-emits the tail chunk forever.
   */
  lemma TailIsFixedPoint(content: string, cfg: ChunkConfig)
    requires 0 < cfg.overlap <= cfg.size / 2
    ensures var tail := |content| - cfg.overlap;
      WindowEnd(content, tail, cfg.size) == |content| && NextStart(content, cfg, tail) == tail
  {
  }

  /** `chunk_document` as written never returns for non-blank content once the effective overlap is positive. */
  lemma AsWrittenNeverReturns(content: string, chunkSize: Option<int>, overlap: Option<int>, meta: Meta,
                              settings: Settings, fuel: nat)
    requires !IsBlank(content)
    requires EffectiveConfig(chunkSize, overlap, settings).overlap > 0
    ensures ChunkDocumentAsWritten(content, chunkSize, overlap, meta, settings, fuel) == None
  {
    WindowsAsWrittenDiverge(content, EffectiveConfig(chunkSize, overlap, settings), 0, fuel);
  }

  /** With the shipped defaults (1000 / 200), a twelve-character document is chunked forever. */
  lemma DefaultsNeverReturn(fuel: nat)
    ensures ChunkDocumentAsWritten("Hello world.", None, None, map[], DefaultSettings, fuel) == None
  {
    assert !IsSpace("Hello world."[0]);
    AsWrittenNeverReturns("Hello world.", None, None, map[], DefaultSettings, fuel);
  }

  /** With an overlap that is not positive the loop makes exactly one pass: only the first window is chunked. */
  lemma AsWrittenSinglePass(content: string, cfg: ChunkConfig, meta: Meta, fuel: nat)
    requires cfg.overlap <= 0 && fuel >= 1 && |content| > 0
    ensures RunAsWritten(content, cfg, meta, 0, [], fuel)
         == Some(Emit(content, meta, Window(0, WindowEnd(content, 0, cfg.size)), 0))
  {
    var w := Window(0, WindowEnd(content, 0, cfg.size));
    assert WindowsAsWritten(content, cfg, 0, fuel) == Some([w]);
    assert EmitAll(content, meta, [w], []) == EmitAll(content, meta, [], Emit(content, meta, w, 0));
  }

  /**
   * Where the chunker as written does return, with an overlap that is not
   * positive and content that fits in one window, it returns what the
   * corrected chunker `Chunks` returns.
   */
  lemma AsWrittenAgreesOnOneWindow(content: string, chunkSize: Option<int>, overlap: Option<int>, meta: Meta,
                                   settings: Settings, fuel: nat)
    requires fuel >= 1
    requires EffectiveConfig(chunkSize, overlap, settings).overlap <= 0
    requires |content| <= EffectiveConfig(chunkSize, overlap, settings).size
    ensures ChunkDocumentAsWritten(content, chunkSize, overlap, meta, settings, fuel)
         == Some(Chunks(content, chunkSize, overlap, meta, settings))
  {
    if !IsBlank(content) {
      var cfg := EffectiveConfig(chunkSize, overlap, settings);
      var w := Window(0, WindowEnd(content, 0, cfg.size));
      assert w.end == |content|;
      assert Windows(content, cfg, 0) == [w];
      AsWrittenSinglePass(content, cfg, meta, fuel);
      assert EmitAll(content, meta, [w], []) == EmitAll(content, meta, [], Emit(content, meta, w, 0));
    }
  }

  // ---------------------------------------------------------------------------
  // The loop with its intended exits
  // ---------------------------------------------------------------------------

  /**
   * The windows of the chunking loop from `start`, with the exits the
   * `start >= end` guard evidently stands for: stop after the window that
   * reaches the end of the content, and stop when the next start would not
   * move forward.
   */
  function Windows(content: string, cfg: ChunkConfig, start: nat): seq<Window>
    decreases |content| - start
  {
    if start >= |content| then []
    else
      var w := Window(start, WindowEnd(content, start, cfg.size));
      var next := NextStart(content, cfg, start);
      if w.end >= |content| || next <= start then [w]
      else [w] + Windows(content, cfg, next)
  }

  /** The chunk list of the corrected chunker. */
  function Chunks(content: string, chunkSize: Option<int>, overlap: Option<int>, meta: Meta, settings: Settings): seq<Chunk> {
    if IsBlank(content) then []
    else EmitAll(content, meta, Windows(content, EffectiveConfig(chunkSize, overlap, settings), 0), [])
  }

  /** One pass of the corrected loop, in terms of `Windows`. */
  lemma WindowsStep(content: string, cfg: ChunkConfig, meta: Meta, start: nat, chunks: seq<Chunk>)
    requires start < |content|
    ensures var w := Window(start, WindowEnd(content, start, cfg.size));
      var emitted := chunks + Emit(content, meta, w, |chunks|);
      var next := NextStart(content, cfg, start);
      EmitAll(content, meta, Windows(content, cfg, start), chunks)
        == if w.end >= |content| || next <= start then emitted
           else EmitAll(content, meta, Windows(content, cfg, next), emitted)
  {
    var w := Window(start, WindowEnd(content, start, cfg.size));
    var next := NextStart(content, cfg, start);
    if w.end < |content| && next > start {
      assert ([w] + Windows(content, cfg, next))[1..] == Windows(content, cfg, next);
    } else {
      assert Windows(content, cfg, start) == [w];
      assert EmitAll(content, meta, [w], chunks) == EmitAll(content, meta, [], chunks + Emit(content, meta, w, |chunks|));
    }
  }

  /** `chunk_document` with the loop's intended exits; this is the chunker ingestion uses. */
  method ChunkDocument(content: string, chunkSize: Option<int>, overlap: Option<int>, meta: Meta, settings: Settings)
    returns (chunks: seq<Chunk>)
    ensures chunks == Chunks(content, chunkSize, overlap, meta, settings)
  {
    StripEmptyIffBlank(content);
    if Strip(content) == [] {
      return [];
    }
    var cfg := EffectiveConfig(chunkSize, overlap, settings);
    chunks := [];
    var start: nat := 0;
    var chunkIndex := 0;
    ghost var goal := EmitAll(content, meta, Windows(content, cfg, 0), []);
    assert goal == Chunks(content, chunkSize, overlap, meta, settings);
    while start < |content|
      invariant chunkIndex == |chunks|
      invariant EmitAll(content, meta, Windows(content, cfg, start), chunks) == goal
      decreases |content| - start
    {
      WindowsStep(content, cfg, meta, start, chunks);
      var end;
      end, chunks, chunkIndex := ChunkPass(content, cfg.size, meta, start, chunks, chunkIndex);
      if end >= |content| {
        return;
      }
      var next := end - cfg.overlap;
      if next <= start {
        return;
      }
      assert next == NextStart(content, cfg, start);
      start := next;
    }
  }

  /** The corrected loop visits windows in increasing order of start, all inside the content. */
  lemma {:induction false} WindowsOrdered(content: string, cfg: ChunkConfig, start: nat)
    ensures OrderedWindows(content, Windows(content, cfg, start))
    ensures forall i :: 0 <= i < |Windows(content, cfg, start)| ==> start <= Windows(content, cfg, start)[i].start
    ensures cfg.size > 0 ==> forall i :: 0 <= i < |Windows(content, cfg, start)| ==> 0 <= Windows(content, cfg, start)[i].end
    decreases |content| - start
  {
    var ws := Windows(content, cfg, start);
    if start < |content| {
      var next := NextStart(content, cfg, start);
      if WindowEnd(content, start, cfg.size) < |content| && next > start {
        WindowsOrdered(content, cfg, next);
        var rest := Windows(content, cfg, next);
        assert forall i :: 1 <= i < |ws| ==> ws[i] == rest[i - 1];
      }
    }
  }

  /**
   * Coverage: with a chunk size of at least 198 and a non-negative overlap,
   * the corrected loop only stops at the end of the content, so every
   * position from `start` on lies inside one of its windows.
   */
  lemma {:induction false} WindowsCover(content: string, cfg: ChunkConfig, start: nat, k: int)
    requires cfg.size >= 198 && 0 <= cfg.overlap <= cfg.size / 2
    requires start <= k < |content|
    ensures exists j :: 0 <= j < |Windows(content, cfg, start)| && InWindow(Windows(content, cfg, start)[j], k)
    decreases |content| - start
  {
    var ws := Windows(content, cfg, start);
    var end := WindowEnd(content, start, cfg.size);
    if k < end {
      assert ws[0] == Window(start, end);
      assert InWindow(ws[0], k);
    } else {
      assert start + cfg.size < |content|;
      assert end >= start + cfg.size - 98;
      var next := NextStart(content, cfg, start);
      assert start < next <= k;
      var rest := Windows(content, cfg, next);
      assert ws == [Window(start, end)] + rest;
      WindowsCover(content, cfg, next, k);
      var j :| 0 <= j < |rest| && InWindow(rest[j], k);
      assert ws[j + 1] == rest[j];
    }
  }

  /**
   * The corrected chunker returns well-formed chunks (indices 0, 1, 2, ...,
   * non-empty stripped text of their window, computed metadata), each taken
   * from a window of the loop; with a positive chunk size their start offsets
   * strictly increase and their windows lie inside the content.
   */
  lemma ChunksWellFormed(content: string, chunkSize: Option<int>, overlap: Option<int>, meta: Meta, settings: Settings)
    ensures var r := Chunks(content, chunkSize, overlap, meta, settings);
      && WellFormedChunks(content, meta, r)
      && (IsBlank(content) ==> r == [])
      && (EffectiveConfig(chunkSize, overlap, settings).size > 0 ==> OrderedChunks(content, r))
  {
    if !IsBlank(content) {
      var cfg := EffectiveConfig(chunkSize, overlap, settings);
      var ws := Windows(content, cfg, 0);
      EmitAllWellFormed(content, meta, ws, []);
      if cfg.size > 0 {
        WindowsOrdered(content, cfg, 0);
        EmitAllOrdered(content, meta, ws, []);
      }
    }
  }

  /** Chunk starts strictly increase and every chunk's window is a non-empty range inside the content. */
  ghost predicate OrderedChunks(content: string, chunks: seq<Chunk>) {
    && (forall i, j :: 0 <= i < j < |chunks| ==> chunks[i].startChar < chunks[j].startChar)
    && (forall i :: 0 <= i < |chunks| ==> 0 <= chunks[i].startChar < chunks[i].endChar <= |content|)
  }

  /** Chunks emitted from ordered windows that start after the chunks so far inherit the order. */
  lemma {:induction false} EmitAllOrdered(content: string, meta: Meta, ws: seq<Window>, chunks: seq<Chunk>)
    requires OrderedWindows(content, ws)
    requires forall i :: 0 <= i < |ws| ==> 0 <= ws[i].end
    requires OrderedChunks(content, chunks)
    requires ws != [] ==> forall i :: 0 <= i < |chunks| ==> chunks[i].startChar < ws[0].start
    ensures OrderedChunks(content, EmitAll(content, meta, ws, chunks))
    decreases |ws|
  {
    if ws != [] {
      var w := ws[0];
      var e := Emit(content, meta, w, |chunks|);
      if e != [] {
        assert Slice(content, w.start, w.end) != [];
        assert w.start < w.end;
      }
      var next := chunks + e;
      assert OrderedChunks(content, next);
      var rest := ws[1..];
      assert OrderedWindows(content, rest) by {
        assert forall i :: 0 <= i < |rest| ==> rest[i] == ws[i + 1];
      }
      if rest != [] {
        assert ws[0].start < ws[1].start;
      }
      EmitAllOrdered(content, meta, rest, next);
    }
  }

  /** With a chunk size of at least 198 and a non-negative overlap, every non-whitespace character is in a chunk. */
  lemma ChunksCoverContent(content: string, chunkSize: Option<int>, overlap: Option<int>, meta: Meta, settings: Settings, k: int)
    requires 0 <= k < |content| && !IsSpace(content[k])
    requires EffectiveConfig(chunkSize, overlap, settings).size >= 198
    requires EffectiveConfig(chunkSize, overlap, settings).overlap >= 0
    ensures var r := Chunks(content, chunkSize, overlap, meta, settings);
      exists i :: 0 <= i < |r| && r[i].startChar <= k < r[i].endChar
  {
    var cfg := EffectiveConfig(chunkSize, overlap, settings);
    var ws := Windows(content, cfg, 0);
    assert !IsBlank(content);
    var r := EmitAll(content, meta, ws, []);
    assert Chunks(content, chunkSize, overlap, meta, settings) == r;
    WindowsCover(content, cfg, 0, k);
    WindowsOrdered(content, cfg, 0);
    var j :| 0 <= j < |ws| && InWindow(ws[j], k);
    WindowTextNonEmpty(content, ws[j], k);
    EmitAllHits(content, meta, ws, [], j);
    var i :| 0 <= i < |r| && r[i].startChar == ws[j].start && r[i].endChar == ws[j].end;
    assert r[i].startChar <= k < r[i].endChar;
  }

  /** A window holding a non-whitespace character has non-empty stripped text. */
  lemma WindowTextNonEmpty(content: string, w: Window, k: int)
    requires 0 <= w.start <= k < w.end <= |content| && !IsSpace(content[k])
    ensures Strip(Slice(content, w.start, w.end)) != []
  {
    var text := content[w.start..w.end];
    assert text[k - w.start] == content[k];
    StripNonEmpty(text, k - w.start);
  }

  /** `get_chunk_texts`: the chunks' texts, one per chunk, in chunk order. */
  function ChunkTexts(chunks: seq<Chunk>): (texts: seq<string>)
    ensures |texts| == |chunks|
    ensures forall i :: 0 <= i < |chunks| ==> texts[i] == chunks[i].content
  {
    seq(|chunks|, i requires 0 <= i < |chunks| => chunks[i].content)
  }

  /** `get_chunk_metadata`: the chunks' metadata, one per chunk, in chunk order. */
  function ChunkMetadataList(chunks: seq<Chunk>): (metas: seq<Meta>)
    ensures |metas| == |chunks|
    ensures forall i :: 0 <= i < |chunks| ==> metas[i] == chunks[i].metadata
  {
    seq(|chunks|, i requires 0 <= i < |chunks| => chunks[i].metadata)
  }

  // ---------------------------------------------------------------------------
  // Validation
  // ---------------------------------------------------------------------------

  /** The `metadata` argument: absent, a dictionary, or another object with its truth value. */
  datatype MetadataArg = NoMetadata | Dict(m: Meta) | NotDict(truthy: bool)

  /** Why `validate_document` rejects a document. */
  datatype Invalid = EmptyContent | TooLarge(maxMb: int) | NotADict | ReservedKey(key: string)

  /** The keys the chunker writes into chunk metadata, which callers may not set. */
  const ReservedKeys: seq<string> := ["chunk_index", "start_char", "end_char", "chunk_size"]

  /** The message `validate_document` returns for each reason. */
  function InvalidMessage(reason: Invalid): string {
    match reason
    case EmptyContent => "Document content cannot be empty"
    case TooLarge(mb) => "Document content too large (max " + IntToString(mb) + "MB)"
    case NotADict => "Metadata must be a dictionary"
    case ReservedKey(key) => "Metadata key '" + key + "' is reserved"
  }

  /** The first reserved key, from position `n` of `ReservedKeys` on, that the dictionary holds. */
  function FirstReservedFrom(m: Meta, n: nat): (r: Option<string>)
    requires n <= |ReservedKeys|
    ensures r.Some? ==> r.value in m && r.value in ReservedKeys[n..]
    ensures r.None? ==> forall j :: n <= j < |ReservedKeys| ==> ReservedKeys[j] !in m
    decreases |ReservedKeys| - n
  {
    if n == |ReservedKeys| then None
    else if ReservedKeys[n] in m then Some(ReservedKeys[n])
    else FirstReservedFrom(m, n + 1)
  }

  /**
   * The verdict of `validate_document`: None when the document is accepted,
   * else the first check that failed, in the order the checks are made.
   * The size cap counts characters: `max_document_size_mb * 1_000_000`.
   */
  function Validation(content: string, metadata: MetadataArg, settings: Settings): Option<Invalid> {
    if IsBlank(content) then Some(EmptyContent)
    else if |content| > settings.maxDocumentSizeMb * 1_000_000 then Some(TooLarge(settings.maxDocumentSizeMb))
    else match metadata
      case NoMetadata => None
      case NotDict(truthy) => if truthy then Some(NotADict) else None
      case Dict(m) =>
        match FirstReservedFrom(m, 0)
        case None => None
        case Some(key) => Some(ReservedKey(key))
  }

  /** `validate_document`: `(True, None)` or `(False, message)`, the reserved keys checked in a loop. */
  method ValidateDocument(content: string, metadata: MetadataArg, settings: Settings)
    returns (valid: bool, error: Option<string>)
    ensures valid <==> Validation(content, metadata, settings) == None
    ensures !valid ==> error == Some(InvalidMessage(Validation(content, metadata, settings).value))
    ensures valid ==> error == None
  {
    StripEmptyIffBlank(content);
    if Strip(content) == [] {
      return false, Some("Document content cannot be empty");
    }
    var maxSizeBytes := settings.maxDocumentSizeMb * 1_000_000;
    if |content| > maxSizeBytes {
      return false, Some("Document content too large (max " + IntToString(settings.maxDocumentSizeMb) + "MB)");
    }
    match metadata {
      case NoMetadata =>
      case NotDict(truthy) =>
        if truthy {
          return false, Some("Metadata must be a dictionary");
        }
      case Dict(m) =>
        if m != map[] {
          var k := 0;
          while k < |ReservedKeys|
            invariant 0 <= k <= |ReservedKeys|
            invariant FirstReservedFrom(m, k) == FirstReservedFrom(m, 0)
          {
            var key := ReservedKeys[k];
            if key in m {
              return false, Some("Metadata key '" + key + "' is reserved");
            }
            k := k + 1;
          }
        }
    }
    return true, None;
  }

  /**
   * A document is accepted exactly when its content is not blank, is within
   * the size cap, and its metadata is absent, a falsy non-dictionary, or a
   * dictionary without any reserved key.
   */
  lemma ValidationAccepts(content: string, metadata: MetadataArg, settings: Settings)
    ensures Validation(content, metadata, settings) == None <==>
      && !IsBlank(content)
      && |content| <= settings.maxDocumentSizeMb * 1_000_000
      && metadata != NotDict(true)
      && (metadata.Dict? ==> forall key :: key in ReservedKeys ==> key !in metadata.m)
  {
    if metadata.Dict? && FirstReservedFrom(metadata.m, 0).None? {
      forall key | key in ReservedKeys
        ensures key !in metadata.m
      {
        var j :| 0 <= j < |ReservedKeys| && ReservedKeys[j] == key;
      }
    }
  }

  /** A reserved-key rejection names a reserved key that the dictionary really holds. */
  lemma ReservedKeyIsPresent(content: string, metadata: MetadataArg, settings: Settings, key: string)
    requires Validation(content, metadata, settings) == Some(ReservedKey(key))
    ensures metadata.Dict? && key in metadata.m && key in ReservedKeys
  {
    var r := FirstReservedFrom(metadata.m, 0);
    assert r == Some(key);
    assert ReservedKeys[0..] == ReservedKeys;
  }

  // ---------------------------------------------------------------------------
  // Preprocessing
  // ---------------------------------------------------------------------------

  /** `' '.join(content.split())`. */
  function NormalizeWhitespace(s: string): string {
    Join(" ", Words(s))
  }

  /** `line.strip()` for every line that is not blank, in order. */
  function NonBlankLines(lines: seq<string>): (r: seq<string>)
    ensures |r| <= |lines|
    ensures forall i :: 0 <= i < |r| ==> r[i] != []
    decreases |lines|
  {
    if lines == [] then []
    else
      var t := Strip(lines[0]);
      if t == [] then NonBlankLines(lines[1..]) else [t] + NonBlankLines(lines[1..])
  }

  /** A list of lines is filtered line by line: each line contributes its `strip()` when that is not empty, in order. */
  lemma {:induction false} NonBlankLinesConcat(a: seq<string>, b: seq<string>)
    ensures NonBlankLines(a + b) == NonBlankLines(a) + NonBlankLines(b)
    ensures |a| == 1 ==> NonBlankLines(a) == if Strip(a[0]) == [] then [] else [Strip(a[0])]
    decreases |a|
  {
    if a != [] {
      assert (a + b)[0] == a[0] && (a + b)[1..] == a[1..] + b;
      NonBlankLinesConcat(a[1..], b);
    } else {
      assert a + b == b;
    }
  }

  /** `'\n'.join(line.strip() for line in content.split('\n') if line.strip())`. */
  function DropBlankLines(s: string): string {
    Join("\n", NonBlankLines(SplitOn(s, '\n')))
  }

  /** The characters the last step keeps: code 32 and up, newline and tab. */
  predicate Printable(c: char) {
    c as int >= 32 || c == '\n' || c == '\t'
  }

  /** `''.join(char for char in content if ord(char) >= 32 or char in '\n\t')`. */
  function KeepPrintable(s: string): (r: string)
    ensures |r| <= |s|
    ensures forall i :: 0 <= i < |r| ==> Printable(r[i]) && r[i] in s
    decreases |s|
  {
    if s == [] then []
    else
      var rest := KeepPrintable(s[1..]);
      if Printable(s[0]) then [s[0]] + rest else rest
  }

  /** The character filter works character by character: each printable character is kept, in order. */
  lemma {:induction false} KeepPrintableConcat(a: string, b: string)
    ensures KeepPrintable(a + b) == KeepPrintable(a) + KeepPrintable(b)
    ensures |a| == 1 ==> KeepPrintable(a) == if Printable(a[0]) then a else []
    decreases |a|
  {
    if a == [] {
      assert a + b == b;
    } else {
      var ab := a + b;
      assert ab[0] == a[0] && ab[1..] == a[1..] + b;
      KeepPrintableConcat(a[1..], b);
      var head := if Printable(a[0]) then [a[0]] else [];
      assert KeepPrintable(a) == head + KeepPrintable(a[1..]);
      assert KeepPrintable(ab) == head + KeepPrintable(ab[1..]);
      if |a| == 1 {
        assert a[1..] == [] && [a[0]] == a;
      }
    }
  }

  /** `preprocess_content`. */
  function Preprocess(s: string): string {
    KeepPrintable(DropBlankLines(NormalizeWhitespace(s)))
  }

  /** Whitespace in `s` is only single spaces strictly inside it. */
  ghost predicate SpaceSeparated(s: string) {
    && (s == [] || (!IsSpace(s[0]) && !IsSpace(s[|s| - 1])))
    && forall i :: 0 <= i < |s| && IsSpace(s[i]) ==> s[i] == ' '
  }

  /** Joining space-free, non-empty words with single spaces gives a space-separated string. */
  lemma {:induction false} JoinWordsSpaceSeparated(parts: seq<string>)
    requires forall i :: 0 <= i < |parts| ==> parts[i] != [] && !HasSpace(parts[i])
    ensures SpaceSeparated(Join(" ", parts))
    decreases |parts|
  {
    if |parts| == 1 {
      assert Join(" ", parts) == parts[0];
      assert !IsSpace(parts[0][0]) && !IsSpace(parts[0][|parts[0]| - 1]);
    } else if |parts| > 1 {
      var rest := Join(" ", parts[1..]);
      JoinWordsSpaceSeparated(parts[1..]);
      var j := parts[0] + " " + rest;
      assert Join(" ", parts) == j;
      assert !IsSpace(parts[0][0]);
      assert rest != [] by {
        assert parts[1..][0] != [];
        JoinNonEmpty(" ", parts[1..]);
      }
      assert j[|j| - 1] == rest[|rest| - 1];
      forall i | 0 <= i < |j| && IsSpace(j[i])
        ensures j[i] == ' '
      {
        if i > |parts[0]| {
          assert j[i] == rest[i - |parts[0]| - 1];
        }
      }
    }
  }

  /** Joining a list whose first part is not empty gives a non-empty string. */
  lemma JoinNonEmpty(sep: string, parts: seq<string>)
    requires |parts| > 0 && parts[0] != []
    ensures Join(sep, parts) != []
  {
  }

  /** After whitespace normalisation the only whitespace left is single inner spaces. */
  lemma NormalizedIsSpaceSeparated(s: string)
    ensures SpaceSeparated(NormalizeWhitespace(s))
  {
    JoinWordsSpaceSeparated(Words(s));
  }

  /** A string without newlines and without whitespace at its ends passes the blank-line step unchanged. */
  lemma DropBlankLinesIdentity(s: string)
    requires '\n' !in s
    requires s == [] || (!IsSpace(s[0]) && !IsSpace(s[|s| - 1]))
    ensures DropBlankLines(s) == s
  {
    SplitOnAbsent(s, '\n');
    StripIdentity(s);
    assert NonBlankLines([s]) == if s == [] then [] else [s];
  }

  /** The character filter changes nothing when every character is kept. */
  lemma {:induction false} KeepPrintableIdentity(s: string)
    requires forall i :: 0 <= i < |s| ==> Printable(s[i])
    ensures KeepPrintable(s) == s
    decreases |s|
  {
    if s != [] {
      KeepPrintableIdentity(s[1..]);
      assert [s[0]] + s[1..] == s;
    }
  }

  /** Dropping whitespace and dropping control characters can be done in either order. */
  lemma {:induction false} KeepPrintableNonSpace(s: string)
    ensures NonSpaceChars(KeepPrintable(s)) == KeepPrintable(NonSpaceChars(s))
    decreases |s|
  {
    if s != [] {
      KeepPrintableNonSpace(s[1..]);
      var c := [s[0]];
      assert s == c + s[1..];
      KeepPrintableConcat(c, s[1..]);
      NonSpaceCharsConcat(c, s[1..]);
      KeepPrintableConcat(KeepPrintable(c), s[1..]);
      NonSpaceCharsConcat(KeepPrintable(c), KeepPrintable(s[1..]));
      KeepPrintableConcat(NonSpaceChars(c), NonSpaceChars(s[1..]));
      assert NonSpaceChars(c) == if IsSpace(s[0]) then [] else c;
      assert NonSpaceChars([]) == [] && KeepPrintable([]) == [];
    }
  }

  /** Joining space-free parts with single spaces and dropping the whitespace again gives the parts, one after the other. */
  lemma {:induction false} NonSpaceCharsOfJoin(parts: seq<string>)
    requires forall i :: 0 <= i < |parts| ==> !HasSpace(parts[i])
    ensures NonSpaceChars(Join(" ", parts)) == Concat(parts)
    decreases |parts|
  {
    if |parts| == 1 {
      NonSpaceCharsFixed(parts[0]);
      assert Concat(parts[1..]) == [];
      assert parts[0] + [] == parts[0];
    } else if |parts| > 1 {
      NonSpaceCharsOfJoin(parts[1..]);
      NonSpaceCharsFixed(parts[0]);
      NonSpaceCharsConcat(parts[0] + " ", Join(" ", parts[1..]));
      NonSpaceCharsConcat(parts[0], " ");
      assert NonSpaceChars(" ") == [];
      assert parts[0] + " " + Join(" ", parts[1..]) == Join(" ", parts);
    }
  }

  /**
   * Preprocessing loses no text: the non-whitespace characters of the result
   * are those of the input, in order, less the control characters.
   */
  lemma PreprocessKeepsText(s: string)
    ensures NonSpaceChars(Preprocess(s)) == KeepPrintable(NonSpaceChars(s))
  {
    var n := NormalizeWhitespace(s);
    NormalizedIsSpaceSeparated(s);
    assert '\n' !in n;
    DropBlankLinesIdentity(n);
    NonSpaceCharsOfJoin(Words(s));
    WordsKeepText(s);
    KeepPrintableNonSpace(n);
  }

  /**
   * Preprocessing leaves no character below code 32: the first step turns
   * newlines and tabs into spaces, the second then finds one line, and the
   * third drops the remaining control characters.
   */
  lemma PreprocessHasNoControlCharacters(s: string)
    ensures forall i :: 0 <= i < |Preprocess(s)| ==> Preprocess(s)[i] as int >= 32
  {
    var n := NormalizeWhitespace(s);
    NormalizedIsSpaceSeparated(s);
    assert '\n' !in n;
    DropBlankLinesIdentity(n);
    var r := Preprocess(s);
    forall i | 0 <= i < |r|
      ensures r[i] as int >= 32
    {
      assert r[i] in n;
      var j :| 0 <= j < |n| && n[j] == r[i];
      assert IsSpace('\t') && IsSpace('\n');
    }
  }

  // ---------------------------------------------------------------------------
  // Metadata extraction
  // ---------------------------------------------------------------------------

  const CodeIndicators: seq<string> :=
    ["def ", "class ", "import ", "from ", "function", "#!/", "<?", "/*", "//", "<!--", "SELECT", "FROM"]
  const MarkdownIndicators: seq<string> := ["# ", "## ", "### ", "**", "*", "`", "```", "[", "]("]
  const HtmlIndicators: seq<string> := ["<html", "<div", "<p>", "<h1", "<h2", "<script", "<style"]

  /** `any(indicator in s for indicator in indicators)`. */
  predicate AnyIndicator(s: string, indicators: seq<string>) {
    exists i :: 0 <= i < |indicators| && Contains(s, indicators[i])
  }

  predicate LooksLikeCode(content: string) {
    AnyIndicator(content, CodeIndicators)
  }

  predicate LooksLikeMarkdown(content: string) {
    AnyIndicator(content, MarkdownIndicators)
  }

  /** The HTML test runs on the lower-cased content. */
  predicate LooksLikeHtml(content: string) {
    AnyIndicator(Lower(content), HtmlIndicators)
  }

  /** The first test that matches decides: code, then markdown, then HTML, else text. */
  function ContentType(content: string): string {
    if LooksLikeCode(content) then "code"
    else if LooksLikeMarkdown(content) then "markdown"
    else if LooksLikeHtml(content) then "html"
    else "text"
  }

  /** `lower()` is idempotent, so the HTML test answers the same on lower-cased content. */
  lemma HtmlIgnoresCase(content: string)
    ensures LooksLikeHtml(Lower(content)) <==> LooksLikeHtml(content)
  {
    assert Lower(Lower(content)) == Lower(content);
  }

  /**
   * Exactly one type is chosen, the tests are tried in source order, the
   * markdown test reduces to its five shortest indicators and the HTML test
   * ignores case.
   */
  lemma ContentTypeFirstMatch(content: string)
    ensures ContentType(content) in {"code", "markdown", "html", "text"}
    ensures ContentType(content) == "code" <==> LooksLikeCode(content)
    ensures ContentType(content) == "markdown"
        <==> !LooksLikeCode(content) && AnyIndicator(content, MarkdownReduced)
    ensures ContentType(content) == "html"
        <==> !LooksLikeCode(content) && !LooksLikeMarkdown(content) && LooksLikeHtml(Lower(content))
    ensures ContentType(content) == "text"
        <==> !LooksLikeCode(content) && !LooksLikeMarkdown(content) && !LooksLikeHtml(content)
  {
    MarkdownIndicatorsReduce(content);
    HtmlIgnoresCase(content);
  }

  /** An occurrence of `sup` holds an occurrence of every substring of `sup`. */
  lemma ContainsSubstring(s: string, sup: string, sub: string, offset: int)
    requires OccursAt(sup, sub, offset)
    requires Contains(s, sup)
    ensures Contains(s, sub)
  {
    var i := Find(s, sup, 0);
    assert s[i..i + |sup|] == sup;
    var j := i + offset;
    forall k | 0 <= k < |sub|
      ensures s[j + k] == sub[k]
    {
      assert s[j + k] == s[i..i + |sup|][offset + k];
      assert sub[k] == sup[offset..offset + |sub|][k];
    }
    assert s[j..j + |sub|] == sub;
    assert OccursAt(s, sub, j);
  }

  /** The markdown indicators that are not substrings of another one. */
  const MarkdownReduced: seq<string> := ["# ", "*", "`", "[", "]("]

  /** Each markdown indicator contains one of the reduced ones. */
  lemma MarkdownIndicatorReduces(content: string, i: int)
    requires 0 <= i < |MarkdownIndicators| && Contains(content, MarkdownIndicators[i])
    ensures AnyIndicator(content, MarkdownReduced)
  {
    var ind := MarkdownIndicators[i];
    if i == 1 {
      ContainsSubstring(content, ind, "# ", 1);
      assert Contains(content, MarkdownReduced[0]);
    } else if i == 2 {
      ContainsSubstring(content, ind, "# ", 2);
      assert Contains(content, MarkdownReduced[0]);
    } else if i == 3 {
      ContainsSubstring(content, ind, "*", 0);
      assert Contains(content, MarkdownReduced[1]);
    } else if i == 6 {
      ContainsSubstring(content, ind, "`", 0);
      assert Contains(content, MarkdownReduced[2]);
    } else if i == 0 {
      assert Contains(content, MarkdownReduced[0]);
    } else if i == 4 {
      assert Contains(content, MarkdownReduced[1]);
    } else if i == 5 {
      assert Contains(content, MarkdownReduced[2]);
    } else if i == 7 {
      assert Contains(content, MarkdownReduced[3]);
    } else {
      assert Contains(content, MarkdownReduced[4]);
    }
  }

  /**
   * Five of the nine markdown indicators decide the test: `## `, `### `,
   * `**` and a code fence each contain one of `# `, `*` and `` ` ``.
   */
  lemma MarkdownIndicatorsReduce(content: string)
    ensures LooksLikeMarkdown(content) <==> AnyIndicator(content, MarkdownReduced)
  {
    if LooksLikeMarkdown(content) {
      var i :| 0 <= i < |MarkdownIndicators| && Contains(content, MarkdownIndicators[i]);
      MarkdownIndicatorReduces(content, i);
    }
    if AnyIndicator(content, MarkdownReduced) {
      var i :| 0 <= i < |MarkdownReduced| && Contains(content, MarkdownReduced[i]);
      var j := [0, 4, 5, 7, 8][i];
      assert MarkdownIndicators[j] == MarkdownReduced[i];
    }
  }

  /** The first five lines, searched for a `# ` or `## ` heading; its text after the marker, stripped. */
  function MarkdownTitleFrom(lines: seq<string>, i: nat): Option<string>
    decreases |lines| - i
  {
    if i >= |lines| || i >= 5 then None
    else
      var line := Strip(lines[i]);
      if StartsWith(line, "# ") then Some(Strip(line[2..]))
      else if StartsWith(line, "## ") then Some(Strip(line[3..]))
      else MarkdownTitleFrom(lines, i + 1)
  }

  /** The text between the first `<title>` and the next `</title>`, found case-insensitively, stripped. */
  function HtmlTitle(content: string): Option<string> {
    var lower := Lower(content);
    if !Contains(lower, "<title>") then None
    else
      var start := Find(lower, "<title>", 0) + 7;
      var end := Find(lower, "</title>", start);
      if start > 6 && end > start then Some(Strip(content[start..end])) else None
  }

  /** The first line, stripped, when it is non-empty, under 100 characters and does not end in a full stop. */
  function FirstLineTitle(lines: seq<string>): Option<string> {
    if lines == [] then None
    else
      var first := Strip(lines[0]);
      if first != [] && |first| < 100 && !EndsWith(first, ".") then Some(first) else None
  }

  /** `_extract_title`: a markdown heading, else an HTML title, else a title-like first line. */
  function TitleOf(content: string): Option<string> {
    var lines := SplitOn(content, '\n');
    var markdown := MarkdownTitleFrom(lines, 0);
    if markdown.Some? then markdown
    else
      var html := HtmlTitle(content);
      if html.Some? then html else FirstLineTitle(lines)
  }

  /** `_extract_title`, with its loop over `lines[:5]` and early returns. */
  method ExtractTitle(content: string) returns (title: Option<string>)
    ensures title == TitleOf(content)
  {
    var lines := SplitOn(content, '\n');
    var i := 0;
    while i < |lines| && i < 5
      invariant 0 <= i
      invariant MarkdownTitleFrom(lines, i) == MarkdownTitleFrom(lines, 0)
      decreases |lines| - i
    {
      var line := Strip(lines[i]);
      if StartsWith(line, "# ") {
        return Some(Strip(line[2..]));
      } else if StartsWith(line, "## ") {
        return Some(Strip(line[3..]));
      }
      i := i + 1;
    }
    var lower := Lower(content);
    if Contains(lower, "<title>") {
      var start := Find(lower, "<title>", 0) + 7;
      var end := Find(lower, "</title>", start);
      if start > 6 && end > start {
        return Some(Strip(content[start..end]));
      }
    }
    var first := Strip(lines[0]);
    if first != [] && |first| < 100 && !EndsWith(first, ".") {
      return Some(first);
    }
    return None;
  }

  /** A markdown heading found by the title search always has text. */
  lemma {:induction false} MarkdownTitleNonEmpty(lines: seq<string>, i: nat)
    requires MarkdownTitleFrom(lines, i).Some?
    ensures var t := MarkdownTitleFrom(lines, i).value; t != [] && !IsSpace(t[0]) && !IsSpace(t[|t| - 1])
    decreases |lines| - i
  {
    var line := Strip(lines[i]);
    StripEnds(lines[i]);
    if StartsWith(line, "# ") || StartsWith(line, "## ") {
      var n := if StartsWith(line, "# ") then 2 else 3;
      assert IsSpace(line[n - 1]) && !IsSpace(line[|line| - 1]);
      var rest := line[n..];
      assert rest[|rest| - 1] == line[|line| - 1];
      StripNonEmpty(rest, |rest| - 1);
      StripEnds(rest);
    } else {
      MarkdownTitleNonEmpty(lines, i + 1);
    }
  }

  /**
   * A title never has whitespace at either end; a markdown heading is never
   * empty; a title taken from the first line is non-empty, shorter than 100
   * characters and does not end in a full stop.
   */
  lemma TitleShape(content: string)
    requires TitleOf(content).Some?
    ensures var t := TitleOf(content).value; t == [] || (!IsSpace(t[0]) && !IsSpace(t[|t| - 1]))
    ensures var lines := SplitOn(content, '\n');
      MarkdownTitleFrom(lines, 0).Some? ==> TitleOf(content).value != []
    ensures var lines := SplitOn(content, '\n'); var t := TitleOf(content).value;
      MarkdownTitleFrom(lines, 0).None? && HtmlTitle(content).None? ==> t != [] && |t| < 100 && !EndsWith(t, ".")
  {
    var lines := SplitOn(content, '\n');
    if MarkdownTitleFrom(lines, 0).Some? {
      MarkdownTitleNonEmpty(lines, 0);
    } else if HtmlTitle(content).Some? {
      var lower := Lower(content);
      var start := Find(lower, "<title>", 0) + 7;
      var end := Find(lower, "</title>", start);
      StripEnds(content[start..end]);
    } else {
      StripEnds(lines[0]);
    }
  }

  /** `content.count('\n') + 1` is the number of lines `split('\n')` gives. */
  lemma {:induction false} LineCountIsLines(s: string)
    ensures CountChar(s, '\n') + 1 == |SplitOn(s, '\n')|
    decreases |s|
  {
    if s != [] {
      LineCountIsLines(s[1..]);
    }
  }

  /** The base metadata with the statistics, the content type and a non-empty title written over it. */
  function WithExtracted(base: Meta, length: int, words: int, lines: int, contentType: string, title: Option<string>): (m: Meta)
    ensures "content_length" in m && m["content_length"] == VInt(length)
    ensures "char_count" in m && m["char_count"] == VInt(length)
    ensures "word_count" in m && m["word_count"] == VInt(words)
    ensures "line_count" in m && m["line_count"] == VInt(lines)
    ensures "content_type" in m && m["content_type"] == VStr(contentType)
    ensures title.Some? && title.value != [] ==> "title" in m && m["title"] == VStr(title.value)
    ensures !(title.Some? && title.value != []) && "title" in base ==> "title" in m && m["title"] == base["title"]
    ensures ("title" in m) <==> ("title" in base || (title.Some? && title.value != []))
    ensures forall key :: key in base && key !in ExtractedKeys ==> key in m && m[key] == base[key]
    ensures forall key :: key in m ==> key in base || key in ExtractedKeys
  {
    var m := base["content_length" := VInt(length)]["word_count" := VInt(words)]["line_count" := VInt(lines)]
                 ["char_count" := VInt(length)]["content_type" := VStr(contentType)];
    if title.Some? && title.value != [] then m["title" := VStr(title.value)] else m
  }

  /**
   * `extract_metadata`: a copy of the base metadata (an absent base is the
   * empty dictionary) with the content statistics, the detected content
   * type and, when one is found and non-empty, the title written over it.
   * The line count is the number of `split('\n')` pieces.
   */
  function ExtractMetadata(content: string, base: Meta): (m: Meta)
    ensures "content_length" in m && m["content_length"] == VInt(|content|)
    ensures "char_count" in m && m["char_count"] == VInt(|content|)
    ensures "word_count" in m && m["word_count"] == VInt(|Words(content)|)
    ensures "line_count" in m && m["line_count"] == VInt(|SplitOn(content, '\n')|)
    ensures "content_type" in m && m["content_type"] == VStr(ContentType(content))
    ensures TitleOf(content).Some? && TitleOf(content).value != [] ==> "title" in m && m["title"] == VStr(TitleOf(content).value)
    ensures !(TitleOf(content).Some? && TitleOf(content).value != []) && "title" in base ==>
              "title" in m && m["title"] == base["title"]
    ensures ("title" in m) <==> ("title" in base || (TitleOf(content).Some? && TitleOf(content).value != []))
    ensures forall key :: key in base && key !in ExtractedKeys ==> key in m && m[key] == base[key]
    ensures forall key :: key in m ==> key in base || key in ExtractedKeys
  {
    LineCountIsLines(content);
    WithExtracted(base, |content|, |Words(content)|, CountChar(content, '\n') + 1, ContentType(content), TitleOf(content))
  }

  /** The keys `extract_metadata` may write. */
  const ExtractedKeys: set<string> :=
    {"content_length", "word_count", "line_count", "char_count", "content_type", "title"}
}
