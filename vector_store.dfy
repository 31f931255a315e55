/**
 * The write path of the PostgreSQL store (src/core/vector_store.py): the
 * collections table, looked up and created by name, and `add_documents`,
 * which inserts documents in batches of `batch_size` rows, one transaction
 * per batch.
 *
 * The database is an append-only sequence of committed rows. A batch's rows
 * become visible only when its commit succeeds; whether the database accepts
 * a commit is outside the program, so the offset of the batch whose commit
 * fails (if any) is a parameter.
 */
module VectorStore {
  import opened Common
  import opened Text

  /** An embedding vector; Python floats are modelled as reals. */
  type Embedding = seq<real>

  /** A row of the collections table (`Collection`). */
  datatype CollectionRecord = CollectionRecord(
    id: nat,
    name: string,
    description: Option<string>,
    embeddingDimension: Option<int>,
    distanceFunction: string,
    metadata: Meta)

  /** A row of the documents table (`Document`) as `add_documents` builds it. */
  datatype Row = Row(
    collectionId: nat,
    documentId: string,
    content: string,
    metadata: Meta,
    embedding: Option<Embedding>)

  datatype StoreError =
    | CollectionNotFound(name: string)    // the ValueError raised for a missing collection
    | DuplicateCollection(name: string)   // the unique constraint on collection names
    | IndexOutOfRange(list: ParallelList, index: nat)  // an IndexError from a list shorter than `documents`
    | ZeroStep                            // `range()` rejects a step of 0
    | CommitFailed(batchStart: nat)       // the database rejected the commit of the batch at this offset

  /** The lists indexed alongside `documents`. */
  datatype ParallelList = DocumentIds | Metadata | Embeddings

  /** The parallel lists handed to `add_documents`; an empty `metadata` or `documentIds` list is treated as absent, as Python's truthiness test does. */
  datatype AddRequest = AddRequest(
    documents: seq<string>,
    embeddings: Option<seq<Embedding>>,
    metadata: seq<Meta>,
    documentIds: seq<string>)

  /** `f"doc_{k}"`, the id given to the row at global index k when no ids are supplied. */
  function DefaultId(k: nat): string {
    "doc_" + NatToString(k)
  }

  /** Distinct indexes get distinct default ids. */
  lemma DefaultIdsDistinct(j: nat, k: nat)
    requires j != k
    ensures DefaultId(j) != DefaultId(k)
  {
    if DefaultId(j) == DefaultId(k) {
      assert NatToString(j) == DefaultId(j)[4..] == DefaultId(k)[4..] == NatToString(k);
      NatToStringInjective(j, k);
    }
  }

  /**
   * The row built for global index `k`, or the IndexError raised while
   * building it: the id is read first, then the metadata, then the
   * embedding, so the first list that is too short is the one reported.
   */
  function RowAt(collectionId: nat, req: AddRequest, k: nat): Result<Row, StoreError>
    requires k < |req.documents|
  {
    if req.documentIds != [] && k >= |req.documentIds| then Err(IndexOutOfRange(DocumentIds, k))
    else if req.metadata != [] && k >= |req.metadata| then Err(IndexOutOfRange(Metadata, k))
    else if req.embeddings.Some? && k >= |req.embeddings.value| then Err(IndexOutOfRange(Embeddings, k))
    else Ok(RowFor(collectionId, req, k))
  }

  /**
   * The row for index `k` once every list that was supplied reaches `k`:
   * the k-th document, the k-th id or `doc_k`, the k-th metadata or an empty
   * dictionary, the k-th embedding or none. Positions outside a list read as
   * absent; `RowAt` never asks for those.
   */
  function RowFor(collectionId: nat, req: AddRequest, k: int): Row {
    var content := if 0 <= k < |req.documents| then req.documents[k] else "";
    var id := if 0 <= k < |req.documentIds| then req.documentIds[k] else if 0 <= k then DefaultId(k) else "";
    var meta := if 0 <= k < |req.metadata| then req.metadata[k] else map[];
    var embedding := if req.embeddings.Some? && 0 <= k < |req.embeddings.value| then Some(req.embeddings.value[k]) else None;
    Row(collectionId, id, content, meta, embedding)
  }

  /**
   * The row for index k exists exactly when no supplied list is too short;
   * it holds the k-th document, the k-th id or `doc_k`, the k-th metadata
   * or an empty dictionary, and an embedding exactly when embeddings were
   * supplied, the k-th one.
   */
  lemma RowAtSpec(collectionId: nat, req: AddRequest, k: nat)
    requires k < |req.documents|
    ensures var r := RowAt(collectionId, req, k);
      && (r.Ok? <==> ((req.documentIds == [] || k < |req.documentIds|)
                      && (req.metadata == [] || k < |req.metadata|)
                      && (req.embeddings.None? || k < |req.embeddings.value|)))
      && (r.Ok? ==> r.value.collectionId == collectionId && r.value.content == req.documents[k])
      && (r.Ok? ==> r.value.documentId == if req.documentIds != [] then req.documentIds[k] else DefaultId(k))
      && (r.Ok? ==> r.value.metadata == if req.metadata != [] then req.metadata[k] else map[])
      && (r.Ok? ==> (r.value.embedding.Some? <==> req.embeddings.Some?))
      && (r.Ok? && req.embeddings.Some? ==> r.value.embedding.value == req.embeddings.value[k])
  {
  }

  /** One past the last index every supplied parallel list covers. */
  function RowLimit(req: AddRequest): (m: nat)
    ensures m <= |req.documents|
  {
    var a := if req.documentIds != [] then Min(|req.documents|, |req.documentIds|) else |req.documents|;
    var b := if req.metadata != [] then Min(a, |req.metadata|) else a;
    if req.embeddings.Some? then Min(b, |req.embeddings.value|) else b
  }

  /** A row builds exactly below the limit. */
  lemma RowLimitSpec(collectionId: nat, req: AddRequest, k: nat)
    requires k < |req.documents|
    ensures RowAt(collectionId, req, k).Ok? <==> k < RowLimit(req)
  {
  }

  /**
   * The rows for global indexes `lo..hi-1`, or the error for the first index
   * whose row cannot be built. Rows fail exactly from `RowLimit` on, so that
   * first index is `max(lo, RowLimit)`.
   */
  function BuildRows(collectionId: nat, req: AddRequest, lo: nat, hi: nat): Result<seq<Row>, StoreError>
    requires lo <= hi <= |req.documents|
  {
    var limit := RowLimit(req);
    if lo < hi && limit < hi then
      var first := if lo < limit then limit else lo;
      RowLimitSpec(collectionId, req, first);
      Err(RowAt(collectionId, req, first).error)
    else
      Ok(seq(hi - lo, i => RowFor(collectionId, req, lo + i)))
  }

  /**
   * A range builds exactly when each of its rows does, and then holds the row
   * of each index in order; otherwise the error is that of its first index
   * whose row fails, every row before it building.
   */
  lemma BuildRowsSpec(collectionId: nat, req: AddRequest, lo: nat, hi: nat)
    requires lo <= hi <= |req.documents|
    ensures var r := BuildRows(collectionId, req, lo, hi);
      && (r.Ok? <==> forall k :: lo <= k < hi ==> RowAt(collectionId, req, k).Ok?)
      && (r.Ok? ==> |r.value| == hi - lo && forall k :: lo <= k < hi ==> RowAt(collectionId, req, k) == Ok(r.value[k - lo]))
      && (r.Err? ==> exists f :: && lo <= f < hi && RowAt(collectionId, req, f) == Err(r.error)
                                 && forall k :: lo <= k < f ==> RowAt(collectionId, req, k).Ok?)
  {
    var limit := RowLimit(req);
    forall k | lo <= k < hi
      ensures RowAt(collectionId, req, k).Ok? <==> k < limit
    {
      RowLimitSpec(collectionId, req, k);
    }
    if lo < hi && limit < hi {
      var f := if lo < limit then limit else lo;
      assert RowAt(collectionId, req, f) == Err(BuildRows(collectionId, req, lo, hi).error);
    }
  }

  /** Extending a range that builds by a row that builds appends that row. */
  lemma BuildRowsStep(collectionId: nat, req: AddRequest, lo: nat, i: nat, batch: seq<Row>, row: Row)
    requires lo <= i < |req.documents|
    requires BuildRows(collectionId, req, lo, i) == Ok(batch) && RowAt(collectionId, req, i) == Ok(row)
    ensures BuildRows(collectionId, req, lo, i + 1) == Ok(batch + [row])
  {
    RowLimitSpec(collectionId, req, i);
    var r := BuildRows(collectionId, req, lo, i + 1);
    assert r.Ok?;
    assert r.value == batch + [row];
  }

  /** Once a row fails, every longer range fails with the same error. */
  lemma BuildRowsStopsAtError(collectionId: nat, req: AddRequest, lo: nat, i: nat, hi: nat)
    requires lo <= i < hi <= |req.documents|
    requires BuildRows(collectionId, req, lo, i).Ok? && RowAt(collectionId, req, i).Err?
    ensures BuildRows(collectionId, req, lo, hi) == Err(RowAt(collectionId, req, i).error)
  {
    RowLimitSpec(collectionId, req, i);
  }

  /** What a run of `add_documents` leaves behind: the rows committed, and what it returns or raises. */
  datatype Outcome = Outcome(committed: seq<Row>, result: Result<seq<Row>, StoreError>)

  /** `batch` committed and returned ahead of everything `rest` commits and returns. */
  function Prepend(batch: seq<Row>, rest: Outcome): Outcome {
    Outcome(batch + rest.committed, if rest.result.Ok? then Ok(batch + rest.result.value) else rest.result)
  }

  lemma PrependPrepend(a: seq<Row>, b: seq<Row>, o: Outcome)
    ensures Prepend(a, Prepend(b, o)) == Prepend(a + b, o)
  {
    assert a + (b + o.committed) == (a + b) + o.committed;
    if o.result.Ok? {
      assert a + (b + o.result.value) == (a + b) + o.result.value;
    }
  }

  /**
   * One batch, at offset `b`: look the collection up, build the rows for
   * `b..min(b + size, n) - 1`, commit them. The rows committed, or what was
   * raised.
   */
  function BatchAt(collections: map<string, CollectionRecord>, name: string, req: AddRequest,
                   size: nat, failingCommit: Option<nat>, b: nat): Result<seq<Row>, StoreError>
    requires size > 0 && b < |req.documents|
  {
    if name !in collections then Err(CollectionNotFound(name))
    else match BuildRows(collections[name].id, req, b, Min(b + size, |req.documents|))
      case Err(e) => Err(e)
      case Ok(batch) => if failingCommit == Some(b) then Err(CommitFailed(b)) else Ok(batch)
  }

  /** A batch that commits holds the rows of its indexes, in order, and a full batch holds `size` of them. */
  lemma BatchAtSpec(collections: map<string, CollectionRecord>, name: string, req: AddRequest,
                    size: nat, failingCommit: Option<nat>, b: nat)
    requires size > 0 && b < |req.documents|
    ensures var r := BatchAt(collections, name, req, size, failingCommit, b);
      r.Ok? ==> && name in collections
                && |r.value| == Min(b + size, |req.documents|) - b
                && forall k :: b <= k < Min(b + size, |req.documents|) ==> RowAt(collections[name].id, req, k) == Ok(r.value[k - b])
  {
    if name in collections {
      BuildRowsSpec(collections[name].id, req, b, Min(b + size, |req.documents|));
    }
  }

  /**
   * The batches from offset `b` on, with a positive batch size: the first
   * batch that fails ends the run, and what earlier batches committed stays.
   */
  function AddFrom(collections: map<string, CollectionRecord>, name: string, req: AddRequest,
                   size: nat, failingCommit: Option<nat>, b: nat): Outcome
    requires size > 0
    decreases |req.documents| - b
  {
    if b >= |req.documents| then Outcome([], Ok([]))
    else match BatchAt(collections, name, req, size, failingCommit, b)
      case Err(e) => Outcome([], Err(e))
      case Ok(batch) => Prepend(batch, AddFrom(collections, name, req, size, failingCommit, b + size))
  }

  /** `add_documents` as a whole: a zero step raises, a negative one runs no batch. */
  function AddDocumentsSpec(collections: map<string, CollectionRecord>, name: string, req: AddRequest,
                            batchSize: int, failingCommit: Option<nat>): Outcome
  {
    if batchSize == 0 then Outcome([], Err(ZeroStep))
    else if batchSize < 0 then Outcome([], Ok([]))
    else AddFrom(collections, name, req, batchSize, failingCommit, 0)
  }

  /** `rows` holds, in order, the rows of the global indexes `lo..hi-1`. */
  ghost predicate RowsOf(collectionId: nat, req: AddRequest, lo: nat, hi: nat, rows: seq<Row>)
    requires lo <= hi <= |req.documents|
  {
    |rows| == hi - lo && forall k :: lo <= k < hi ==> RowAt(collectionId, req, k) == Ok(rows[k - lo])
  }

  /** The rows of two adjacent ranges, one after the other, are the rows of their union. */
  lemma RowsOfConcat(collectionId: nat, req: AddRequest, lo: nat, mid: nat, hi: nat, a: seq<Row>, b: seq<Row>)
    requires lo <= mid <= hi <= |req.documents|
    requires RowsOf(collectionId, req, lo, mid, a) && RowsOf(collectionId, req, mid, hi, b)
    ensures RowsOf(collectionId, req, lo, hi, a + b)
  {
    forall k | lo <= k < hi
      ensures RowAt(collectionId, req, k) == Ok((a + b)[k - lo])
    {
      if k >= mid {
        assert (a + b)[k - lo] == b[k - mid];
      }
    }
  }

  /** On success what is returned is exactly what was committed: one row per input from offset `b` on. */
  lemma {:induction false} AddFromSuccessShape(collections: map<string, CollectionRecord>, name: string, req: AddRequest,
                                               size: nat, failingCommit: Option<nat>, b: nat)
    requires size > 0 && b <= |req.documents|
    requires AddFrom(collections, name, req, size, failingCommit, b).result.Ok?
    ensures var o := AddFrom(collections, name, req, size, failingCommit, b);
      && o.committed == o.result.value
      && |o.committed| == |req.documents| - b
      && (b < |req.documents| ==> name in collections)
    decreases |req.documents| - b
  {
    var n := |req.documents|;
    if b < n {
      BatchAtSpec(collections, name, req, size, failingCommit, b);
      if b + size <= n {
        AddFromSuccessShape(collections, name, req, size, failingCommit, b + size);
      }
    }
  }

  /** On success every input from offset `b` on has its row committed, in input order. */
  lemma {:induction false} AddFromSuccess(collections: map<string, CollectionRecord>, name: string, req: AddRequest,
                                          size: nat, failingCommit: Option<nat>, b: nat)
    requires size > 0 && b < |req.documents|
    requires AddFrom(collections, name, req, size, failingCommit, b).result.Ok?
    ensures name in collections
    ensures RowsOf(collections[name].id, req, b, |req.documents|, AddFrom(collections, name, req, size, failingCommit, b).committed)
    decreases |req.documents| - b
  {
    var n := |req.documents|;
    var hi := Min(b + size, n);
    BatchAtSpec(collections, name, req, size, failingCommit, b);
    var batch := BatchAt(collections, name, req, size, failingCommit, b).value;
    var rest := AddFrom(collections, name, req, size, failingCommit, b + size);
    var id := collections[name].id;
    assert RowsOf(id, req, b, hi, batch);
    if b + size < n {
      AddFromSuccess(collections, name, req, size, failingCommit, b + size);
      RowsOfConcat(id, req, b, hi, n, batch, rest.committed);
    } else {
      assert batch + rest.committed == batch;
    }
  }

  /**
   * On failure the run stops at a batch boundary: the run from the end of
   * the batches committed so far commits nothing and raises the same error.
   */
  lemma {:induction false} AddFromFailureStops(collections: map<string, CollectionRecord>, name: string, req: AddRequest,
                                               size: nat, failingCommit: Option<nat>, b: nat)
    requires size > 0 && b <= |req.documents|
    requires AddFrom(collections, name, req, size, failingCommit, b).result.Err?
    ensures var o := AddFrom(collections, name, req, size, failingCommit, b);
      && OnBatchBoundary(size, b, b + |o.committed|)
      && b + |o.committed| < |req.documents|
      && AddFrom(collections, name, req, size, failingCommit, b + |o.committed|) == Outcome([], o.result)
    decreases |req.documents| - b
  {
    var o := AddFrom(collections, name, req, size, failingCommit, b);
    var r := BatchAt(collections, name, req, size, failingCommit, b);
    if r.Ok? {
      BatchAtSpec(collections, name, req, size, failingCommit, b);
      var rest := AddFrom(collections, name, req, size, failingCommit, b + size);
      assert o == Prepend(r.value, rest);
      assert b + size < |req.documents|;
      AddFromFailureStops(collections, name, req, size, failingCommit, b + size);
      assert b + |o.committed| == (b + size) + |rest.committed|;
    } else {
      assert o.committed == [];
    }
  }

  /** Without the collection the first batch already fails, and nothing is committed. */
  lemma AddFromNoCollection(collections: map<string, CollectionRecord>, name: string, req: AddRequest,
                            size: nat, failingCommit: Option<nat>)
    requires size > 0 && name !in collections
    ensures var o := AddFrom(collections, name, req, size, failingCommit, 0);
      o == Outcome([], if |req.documents| == 0 then Ok([]) else Err(CollectionNotFound(name)))
  {
  }

  /** On failure what stays committed from offset `b` is the rows of the first `m` inputs, in order. */
  lemma {:induction false} AddFromFailureKeeps(collections: map<string, CollectionRecord>, name: string, req: AddRequest,
                                               size: nat, failingCommit: Option<nat>, b: nat)
    returns (m: nat)
    requires size > 0 && b <= |req.documents| && name in collections
    requires AddFrom(collections, name, req, size, failingCommit, b).result.Err?
    ensures m == |AddFrom(collections, name, req, size, failingCommit, b).committed| && b + m <= |req.documents|
    ensures RowsOf(collections[name].id, req, b, b + m, AddFrom(collections, name, req, size, failingCommit, b).committed)
    decreases |req.documents| - b
  {
    var r := BatchAt(collections, name, req, size, failingCommit, b);
    var o := AddFrom(collections, name, req, size, failingCommit, b);
    if r.Ok? {
      var next := b + size;
      var rest := AddFrom(collections, name, req, size, failingCommit, next);
      assert o == Prepend(r.value, rest);
      assert rest.result.Err?;
      assert next < |req.documents|;
      var k := AddFromFailureKeeps(collections, name, req, size, failingCommit, next);
      BatchAtRows(collections, name, req, size, failingCommit, b);
      RowsOfConcat(collections[name].id, req, b, next, next + k, r.value, rest.committed);
      m := size + k;
    } else {
      m := 0;
    }
  }

  /** A full batch that commits holds the rows of its `size` inputs. */
  lemma BatchAtRows(collections: map<string, CollectionRecord>, name: string, req: AddRequest,
                    size: nat, failingCommit: Option<nat>, b: nat)
    requires size > 0 && b + size <= |req.documents|
    requires BatchAt(collections, name, req, size, failingCommit, b).Ok?
    ensures name in collections
    ensures RowsOf(collections[name].id, req, b, b + size, BatchAt(collections, name, req, size, failingCommit, b).value)
  {
    BatchAtSpec(collections, name, req, size, failingCommit, b);
  }

  /**
   * `add_documents` as a whole: a zero batch size raises, a negative one
   * returns an empty list without inserting; otherwise every row committed
   * is the row of its input, in input order, and a run that returns has
   * committed one row per input and returns exactly those rows.
   */
  lemma AddDocumentsRows(collections: map<string, CollectionRecord>, name: string, req: AddRequest,
                         batchSize: int, failingCommit: Option<nat>)
    ensures var o := AddDocumentsSpec(collections, name, req, batchSize, failingCommit);
      && (batchSize == 0 ==> o == Outcome([], Err(ZeroStep)))
      && (batchSize < 0 ==> o == Outcome([], Ok([])))
      && (batchSize > 0 && o.result.Ok? ==> o.committed == o.result.value && |o.committed| == |req.documents|)
      && |o.committed| <= |req.documents|
      && (name !in collections ==> o.committed == [])
      && (name in collections ==> RowsOf(collections[name].id, req, 0, |o.committed|, o.committed))
  {
    if batchSize > 0 {
      var o := AddFrom(collections, name, req, batchSize, failingCommit, 0);
      if name !in collections {
        AddFromNoCollection(collections, name, req, batchSize, failingCommit);
      } else if o.result.Ok? {
        AddFromSuccessShape(collections, name, req, batchSize, failingCommit, 0);
        if |req.documents| > 0 {
          AddFromSuccess(collections, name, req, batchSize, failingCommit, 0);
        }
      } else {
        var m := AddFromFailureKeeps(collections, name, req, batchSize, failingCommit, 0);
      }
    }
  }

  /** Before the first batch nothing is done and the whole run is still ahead. */
  lemma RunBegins(goal: Outcome)
    ensures Prepend([], goal) == goal
  {
    assert [] + goal.committed == goal.committed;
    if goal.result.Ok? {
      assert [] + goal.result.value == goal.result.value;
    }
  }

  /** Past the last input the run is over: everything done is committed and returned. */
  lemma RunEnds(collections: map<string, CollectionRecord>, name: string, req: AddRequest,
                size: nat, failingCommit: Option<nat>, b: nat, done: seq<Row>, goal: Outcome)
    requires size > 0 && b >= |req.documents|
    requires Prepend(done, AddFrom(collections, name, req, size, failingCommit, b)) == goal
    ensures goal == Outcome(done, Ok(done))
  {
    assert done + [] == done;
  }

  /** A batch that fails ends the run with what earlier batches committed. */
  lemma RunStops(collections: map<string, CollectionRecord>, name: string, req: AddRequest,
                 size: nat, failingCommit: Option<nat>, b: nat, done: seq<Row>, goal: Outcome, e: StoreError)
    requires size > 0 && b < |req.documents|
    requires Prepend(done, AddFrom(collections, name, req, size, failingCommit, b)) == goal
    requires BatchAt(collections, name, req, size, failingCommit, b) == Err(e)
    ensures goal == Outcome(done, Err(e))
  {
    assert done + [] == done;
  }

  /** A batch that commits moves its rows from the rest of the run to what is done. */
  lemma RunContinues(collections: map<string, CollectionRecord>, name: string, req: AddRequest,
                     size: nat, failingCommit: Option<nat>, b: nat, next: nat, done: seq<Row>, goal: Outcome, batch: seq<Row>)
    requires size > 0 && b < |req.documents| && next == b + size
    requires Prepend(done, AddFrom(collections, name, req, size, failingCommit, b)) == goal
    requires BatchAt(collections, name, req, size, failingCommit, b) == Ok(batch)
    ensures Prepend(done + batch, AddFrom(collections, name, req, size, failingCommit, next)) == goal
  {
    PrependPrepend(done, batch, AddFrom(collections, name, req, size, failingCommit, next));
  }

  /** `x` is one of the offsets `b`, `b + size`, `b + 2·size`, ... */
  predicate OnBatchBoundary(size: nat, b: nat, x: nat)
    decreases x - b
  {
    x == b || (size > 0 && b + size <= x && OnBatchBoundary(size, b + size, x))
  }

  /**
   * The batch ranges `[b, min(b + size, n))` for `b` = 0, size, 2·size, ...
   * below `n`, which `range(0, n, size)` and `min` produce.
   */
  function BatchRanges(n: nat, size: nat, b: nat): seq<(nat, nat)>
    requires size > 0
    decreases n - b
  {
    if b >= n then [] else [(b, Min(b + size, n))] + BatchRanges(n, size, b + size)
  }

  /**
   * The batch ranges partition the inputs: the first starts at `b`, each
   * ends where the next starts, the last ends at `n`, and each is non-empty
   * and at most `size` long.
   */
  lemma {:induction false} BatchRangesPartition(n: nat, size: nat, b: nat)
    requires size > 0 && b < n
    ensures var rs := BatchRanges(n, size, b);
      && |rs| > 0
      && rs[0].0 == b
      && rs[|rs| - 1].1 == n
      && (forall i :: 0 <= i < |rs| ==> rs[i].0 < rs[i].1 <= rs[i].0 + size)
      && (forall i :: 0 <= i < |rs| - 1 ==> rs[i].1 == rs[i + 1].0)
    decreases n - b
  {
    var rs := BatchRanges(n, size, b);
    if b + size < n {
      BatchRangesPartition(n, size, b + size);
      var rest := BatchRanges(n, size, b + size);
      assert rs == [(b, b + size)] + rest;
      assert rs[|rs| - 1] == rest[|rest| - 1];
      forall i | 0 <= i < |rs|
        ensures rs[i].0 < rs[i].1 <= rs[i].0 + size
      {
        if i > 0 {
          assert rs[i] == rest[i - 1];
        }
      }
      forall i | 0 <= i < |rs| - 1
        ensures rs[i].1 == rs[i + 1].0
      {
        assert rs[i + 1] == rest[i];
        if i > 0 {
          assert rs[i] == rest[i - 1];
        }
      }
    } else {
      assert BatchRanges(n, size, b + size) == [];
      assert rs == [(b, n)];
    }
  }

  /** Every range lies inside the `n` inputs. */
  ghost predicate RangesWithin(ranges: seq<(nat, nat)>, n: nat) {
    forall i :: 0 <= i < |ranges| ==> ranges[i].0 <= ranges[i].1 <= n
  }

  /** The ranges `range(0, n, size)` and `min` produce lie inside the inputs. */
  lemma {:induction false} BatchRangesWithin(n: nat, size: nat, b: nat)
    requires size > 0
    ensures RangesWithin(BatchRanges(n, size, b), n)
    decreases n - b
  {
    if b < n {
      BatchRangesWithin(n, size, b + size);
      var rs := BatchRanges(n, size, b);
      assert rs[1..] == BatchRanges(n, size, b + size);
    }
  }

  /** The transaction for one range `[lo, hi)`: the collection, its rows, the commit. */
  function RangeBatch(collections: map<string, CollectionRecord>, name: string, req: AddRequest,
                      failingCommit: Option<nat>, lo: nat, hi: nat): Result<seq<Row>, StoreError>
    requires lo <= hi <= |req.documents|
  {
    if name !in collections then Err(CollectionNotFound(name))
    else match BuildRows(collections[name].id, req, lo, hi)
      case Err(e) => Err(e)
      case Ok(batch) => if failingCommit == Some(lo) then Err(CommitFailed(lo)) else Ok(batch)
  }

  /** One transaction per range, in order, until one fails. */
  function RunRanges(collections: map<string, CollectionRecord>, name: string, req: AddRequest,
                     failingCommit: Option<nat>, ranges: seq<(nat, nat)>): Outcome
    requires RangesWithin(ranges, |req.documents|)
    decreases |ranges|
  {
    if ranges == [] then Outcome([], Ok([]))
    else
      match RangeBatch(collections, name, req, failingCommit, ranges[0].0, ranges[0].1)
      case Err(e) => Outcome([], Err(e))
      case Ok(batch) => Prepend(batch, RunRanges(collections, name, req, failingCommit, ranges[1..]))
  }

  /**
   * `AddFrom` is the loop `for batch_start in range(b, n, size)` with
   * `batch_end = min(batch_start + size, n)`: one transaction for each of
   * `BatchRanges`, in order, until one fails.
   */
  lemma {:induction false} AddFromRunsBatchRanges(collections: map<string, CollectionRecord>, name: string,
                                                  req: AddRequest, size: nat, failingCommit: Option<nat>, b: nat)
    requires size > 0
    ensures RangesWithin(BatchRanges(|req.documents|, size, b), |req.documents|)
    ensures AddFrom(collections, name, req, size, failingCommit, b)
         == RunRanges(collections, name, req, failingCommit, BatchRanges(|req.documents|, size, b))
    decreases |req.documents| - b
  {
    var n := |req.documents|;
    BatchRangesWithin(n, size, b);
    if b < n {
      var rs := BatchRanges(n, size, b);
      AddFromRunsBatchRanges(collections, name, req, size, failingCommit, b + size);
      assert rs[0] == (b, Min(b + size, n)) && rs[1..] == BatchRanges(n, size, b + size);
      assert RangeBatch(collections, name, req, failingCommit, b, Min(b + size, n))
          == BatchAt(collections, name, req, size, failingCommit, b);
    }
  }

  /**
   * The loop of `add_documents` that builds one batch's `document_objects`
   * for global indexes `lo..hi-1`, stopping at the first IndexError.
   */
  method BuildBatch(collectionId: nat, req: AddRequest, lo: nat, hi: nat) returns (r: Result<seq<Row>, StoreError>)
    requires lo <= hi <= |req.documents|
    ensures r == BuildRows(collectionId, req, lo, hi)
  {
    var batch: seq<Row> := [];
    var i := lo;
    assert BuildRows(collectionId, req, lo, lo).value == [];
    while i < hi
      invariant lo <= i <= hi
      invariant BuildRows(collectionId, req, lo, i) == Ok(batch)
    {
      var row := RowAt(collectionId, req, i);
      if row.Err? {
        BuildRowsStopsAtError(collectionId, req, lo, i, hi);
        return Err(row.error);
      }
      BuildRowsStep(collectionId, req, lo, i, batch, row.value);
      batch := batch + [row.value];
      i := i + 1;
    }
    return Ok(batch);
  }

  /**
   * One transaction of `add_documents`: look the collection up, build the
   * batch's rows, commit. The rows the commit makes visible, or what was raised.
   */
  method RunBatch(collections: map<string, CollectionRecord>, name: string, req: AddRequest,
                  size: nat, failingCommit: Option<nat>, batchStart: nat) returns (r: Result<seq<Row>, StoreError>)
    requires size > 0 && batchStart < |req.documents|
    ensures r == BatchAt(collections, name, req, size, failingCommit, batchStart)
  {
    var batchEnd := Min(batchStart + size, |req.documents|);
    if name !in collections {
      return Err(CollectionNotFound(name));
    }
    var built := BuildBatch(collections[name].id, req, batchStart, batchEnd);
    if built.Err? {
      return Err(built.error);
    }
    if failingCommit == Some(batchStart) {
      return Err(CommitFailed(batchStart));
    }
    return Ok(built.value);
  }

  /**
   * One batch of the loop, with what it means for the whole run: a failing
   * batch ends the run with `done`, a committing one moves its rows from the
   * rest of the run to `done`.
   */
  method NextBatch(collections: map<string, CollectionRecord>, name: string, req: AddRequest,
                   size: nat, failingCommit: Option<nat>, batchStart: nat, ghost done: seq<Row>, ghost goal: Outcome)
    returns (r: Result<seq<Row>, StoreError>)
    requires size > 0 && batchStart < |req.documents|
    requires Prepend(done, AddFrom(collections, name, req, size, failingCommit, batchStart)) == goal
    ensures r.Err? ==> goal == Outcome(done, Err(r.error))
    ensures r.Ok? ==> Prepend(done + r.value, AddFrom(collections, name, req, size, failingCommit, batchStart + size)) == goal
  {
    r := RunBatch(collections, name, req, size, failingCommit, batchStart);
    if r.Err? {
      RunStops(collections, name, req, size, failingCommit, batchStart, done, goal, r.error);
    } else {
      RunContinues(collections, name, req, size, failingCommit, batchStart, batchStart + size, done, goal, r.value);
    }
  }

  /** The store: the collections table by name, and every document row ever committed. */
  class Store {
    var collections: map<string, CollectionRecord>
    var rows: seq<Row>
    var nextCollectionId: nat

    /** Every collection is stored under its own name. */
    ghost predicate Valid()
      reads this
    {
      forall name :: name in collections ==> collections[name].name == name
    }

    constructor()
      ensures Valid()
      ensures collections == map[] && rows == [] && nextCollectionId == 0
    {
      collections := map[];
      rows := [];
      nextCollectionId := 0;
    }

    /** `get_collection`: the collection with this name, or None. */
    function GetCollection(name: string): (r: Option<CollectionRecord>)
      reads this
      ensures r.Some? <==> name in collections
      ensures r.Some? ==> r.value == collections[name]
      ensures r.Some? && Valid() ==> r.value.name == name
    {
      if name in collections then Some(collections[name]) else None
    }

    /**
     * `create_collection`: adds a collection with a fresh id; a name already
     * taken violates the table's unique constraint and nothing changes.
     */
    method CreateCollection(name: string, description: Option<string>, embeddingDimension: Option<int>,
                            distanceFunction: string, metadata: Meta) returns (r: Result<CollectionRecord, StoreError>)
      requires Valid()
      modifies this
      ensures Valid()
      ensures name in old(collections) ==> r == Err(DuplicateCollection(name)) && collections == old(collections)
      ensures name !in old(collections) ==> r.Ok? && r.value.name == name && r.value.id == old(nextCollectionId)
                                            && collections == old(collections)[name := r.value]
      ensures r.Ok? ==> r.value.metadata == metadata && r.value.description == description
                        && r.value.embeddingDimension == embeddingDimension && r.value.distanceFunction == distanceFunction
      ensures nextCollectionId == if name in old(collections) then old(nextCollectionId) else old(nextCollectionId) + 1
      ensures rows == old(rows)
    {
      if name in collections {
        return Err(DuplicateCollection(name));
      }
      var record := CollectionRecord(nextCollectionId, name, description, embeddingDimension, distanceFunction, metadata);
      collections := collections[name := record];
      nextCollectionId := nextCollectionId + 1;
      r := Ok(record);
    }

    /**
     * `add_documents`: the rows committed are appended to the table and
     * nothing else changes; what is returned, or raised, is
     * `AddDocumentsSpec`'s result.
     */
    method AddDocuments(name: string, req: AddRequest, batchSize: int, failingCommit: Option<nat>)
      returns (r: Result<seq<Row>, StoreError>)
      modifies this
      ensures rows == old(rows) + AddDocumentsSpec(old(collections), name, req, batchSize, failingCommit).committed
      ensures r == AddDocumentsSpec(old(collections), name, req, batchSize, failingCommit).result
      ensures collections == old(collections) && nextCollectionId == old(nextCollectionId)
    {
      if batchSize == 0 {
        return Err(ZeroStep);
      }
      if batchSize < 0 {
        return Ok([]);
      }
      r := AddBatches(name, req, batchSize, failingCommit);
    }

    /** The batch loop of `add_documents`, for a positive batch size. */
    method AddBatches(name: string, req: AddRequest, size: nat, failingCommit: Option<nat>)
      returns (r: Result<seq<Row>, StoreError>)
      requires size > 0
      modifies this
      ensures rows == old(rows) + AddFrom(old(collections), name, req, size, failingCommit, 0).committed
      ensures r == AddFrom(old(collections), name, req, size, failingCommit, 0).result
      ensures collections == old(collections) && nextCollectionId == old(nextCollectionId)
    {
      var table := collections;
      ghost var goal := AddFrom(table, name, req, size, failingCommit, 0);
      var allResults: seq<Row> := [];
      var batchStart: nat := 0;
      RunBegins(goal);
      while batchStart < |req.documents|
        invariant rows == old(rows) + allResults
        invariant Prepend(allResults, AddFrom(table, name, req, size, failingCommit, batchStart)) == goal
        invariant collections == table && nextCollectionId == old(nextCollectionId)
        decreases |req.documents| - batchStart
      {
        var outcome := NextBatch(table, name, req, size, failingCommit, batchStart, allResults, goal);
        if outcome.Err? {
          return Err(outcome.error);
        }
        var batch := outcome.value;
        var next := batchStart + size;
        assert (old(rows) + allResults) + batch == old(rows) + (allResults + batch);
        rows := rows + batch;
        allResults := allResults + batch;
        batchStart := next;
      }
      RunEnds(table, name, req, size, failingCommit, batchStart, allResults, goal);
      return Ok(allResults);
    }
  }
}
