/**
 * Types shared by the ingestion service's components: optional values, results
 * that carry an error, and the JSON-like metadata dictionaries attached to
 * documents, chunks and stored rows.
 */
module Common {
  import opened Text

  datatype Option<+T> = None | Some(value: T)

  datatype Result<+T, +E> = Ok(value: T) | Err(error: E)

  /** A scalar metadata value as it appears in a request's JSON metadata. */
  datatype Value = VNone | VBool(b: bool) | VInt(i: int) | VStr(s: string)

  /** A metadata dictionary, `Dict[str, Any]` in the service. */
  type Meta = map<string, Value>

  /** Python's `str(v)`, as used when a value is formatted into an f-string. */
  function Render(v: Value): string {
    match v
    case VNone => "None"
    case VBool(b) => if b then "True" else "False"
    case VInt(i) => IntToString(i)
    case VStr(s) => s
  }

  /** `d.get(key, default)`. */
  function Get(d: Meta, key: string, default: Value): Value {
    if key in d then d[key] else default
  }

  /**
   * The configuration values the core reads (`Settings`): the chunker's
   * defaults, the document size cap in millions of characters, the synchronous
   * batch cap and the number of rows committed per database transaction.
   */
  datatype Settings = Settings(
    documentChunkSize: int,
    documentChunkOverlap: int,
    maxDocumentSizeMb: int,
    maxBatchDocuments: int,
    batchCommitSize: int)

  /** The shipped defaults: 1000 / 200 characters, 5 MB, 50 documents, 10 rows. */
  const DefaultSettings := Settings(1000, 200, 5, 50, 10)

  function Max(a: int, b: int): int {
    if a >= b then a else b
  }

  function Min(a: int, b: int): int {
    if a <= b then a else b
  }
}
