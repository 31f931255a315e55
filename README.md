# Document ingestion core of the vector search service

This project models the write path of a document search service in Dafny:
documents come in through two HTTP endpoints, are validated, cleaned,
chunked and stored as rows of a PostgreSQL documents table. Batches can
also be run in the background under an in-memory job registry.

- `text.dfy` (module `Text`) holds the Python string operations the
  processor relies on: `strip`, `split()`, `split('\n')`, `count`, `find`,
  `lower`, slicing and `str(int)`. They are restricted to ASCII whitespace
  and ASCII case.
- `common.dfy` (module `Common`) holds `Option` and `Result`, JSON-like
  metadata values (`Value`, `Meta`) and the settings the core reads.
- `document_processor.dfy` (module `DocumentProcessor`) models
  `DocumentProcessor`:
  - content-hash document ids;
  - the overlapping, word-boundary chunker;
  - validation;
  - preprocessing;
  - metadata extraction (statistics, content type, title).
- `job_manager.dfy` (module `JobManager`) models the `JobManager` class as a
  Dafny class. Its job dictionary and insertion order are fields, and every
  method updates them in place. Statuses, results and job records are
  datatypes.
- `vector_store.dfy` (module `VectorStore`) models the collections table and
  `add_documents`. Documents are inserted in batches of `batch_size` rows,
  one transaction per batch. The store is a class whose committed rows only
  grow.
- `documents_api.dfy` (module `DocumentsApi`) models three API operations:
  - `ingest_document`: look up or create the collection, validate, choose an
    id, preprocess, extract metadata, chunk, build per-chunk metadata and
    ids, store, answer;
  - `batch_ingest_documents`: the batch cap, the collection check, and the
    async and sync modes;
  - `process_batch_job`: the background loop that reports progress and
    completes the job.

  HTTP errors are values: `HttpError(status, detail)`. The per-document
  error text is Starlette's `str(HTTPException)`, which is
  `"{status}: {detail}"`.

Each stateful operation is a method proved equal to a specification
function (`Ingest`, `AddDocumentsSpec`, `IngestAll`, `CompletedJob`, ...).
The source's promises are then proved as lemmas about those functions.

Two behaviours follow the code rather than the messages or docstrings
around it:
- The batch cap (`len(documents) > max_batch_documents` gives a 400) is
  checked in both processing modes, although its message advises async
  mode for large batches.
- `complete_job` marks even a CANCELLED job COMPLETED.

## Model

| member | source | states |
|---|---|---|
| Text.TrimStart | src/core/document_processor.py:58 | `lstrip` never lengthens a string |
| Text.TrimStartDropsSpaces | src/core/document_processor.py:58 | `lstrip` removes exactly the leading whitespace: what is left is a suffix that is empty or starts with a non-space, and everything dropped is whitespace |
| Text.TrimEnd | src/core/document_processor.py:58 | `rstrip` never lengthens a string |
| Text.TrimEndDropsSpaces | src/core/document_processor.py:58 | `rstrip` removes exactly the trailing whitespace: what is left is a prefix that is empty or ends with a non-space, and everything dropped is whitespace |
| Text.StripIdentity | src/core/document_processor.py:80 | `strip()` leaves a string without whitespace at its ends unchanged |
| Text.StripEmptyIffBlank | src/core/document_processor.py:58 | `not content.strip()` holds exactly when the content is all whitespace |
| Text.StripNonEmpty | src/core/document_processor.py:80 | a string holding a non-space character strips to a non-empty string |
| Text.StripEnds | src/core/document_processor.py:80 | a stripped string has no whitespace at either end |
| Text.WordLength | src/core/document_processor.py:228 | the first word of `split()` runs up to the first whitespace |
| Text.Words | src/core/document_processor.py:228 | `split()` yields non-empty words without whitespace; `WordsKeepText` shows that together they are exactly the input's non-whitespace characters, in order |
| Text.WordsEmptyIffBlank | src/core/document_processor.py:228 | `split()` is empty exactly for blank strings |
| Text.SplitOn | src/core/document_processor.py:172 | `split('\n')` yields at least one piece and no piece holds the separator; `SplitOnJoin` shows joining the pieces gives back the input |
| Text.SplitOnAbsent | src/core/document_processor.py:231 | a string without the separator splits into itself alone |
| Text.JoinConsHead | src/core/document_processor.py:228 | `join` of parts whose first part is extended by a prefix is that prefix followed by the join |
| Text.SplitOnJoin | src/core/document_processor.py:172 | joining the pieces of `split(c)` with `c` gives back the input |
| Text.Join | src/core/document_processor.py:228 | `sep.join(parts)`; `SplitOnJoin` makes it the inverse of `split`, and `NonSpaceCharsOfJoin` shows a space join adds no non-space character |
| Text.NonSpaceChars | src/core/document_processor.py:228 | the non-whitespace characters of a string, in order: never longer, and free of whitespace |
| Text.NonSpaceCharsConcat | src/core/document_processor.py:228 | the non-whitespace characters of a concatenation are those of each part, in order |
| Text.NonSpaceCharsFixed | src/core/document_processor.py:228 | a string without whitespace is its own non-whitespace characters, and a blank string has none |
| Text.WordsKeepText | src/core/document_processor.py:228 | the words of `split()`, concatenated, are exactly the input's non-whitespace characters, in order |
| Text.Strip | src/core/document_processor.py:80 | `strip()`; `StripEnds`, `StripIdentity`, `StripNonEmpty` and `StripEmptyIffBlank` state what it removes and keeps |
| Text.CountChar | src/core/document_processor.py:131 | `count('\n')` is at most the length, and is zero exactly when no newline occurs |
| Text.Find | src/core/document_processor.py:183-187 | `find` returns the first occurrence at or after `start`, or -1 when there is none |
| Text.Lower | src/core/document_processor.py:168 | `lower()` maps each character and keeps the length |
| Text.SliceBound | src/core/job_manager.py:135 | Python's clamping of a slice bound: an in-range bound is kept, a bound past the end becomes the length, and a negative bound becomes `max(0, i + n)` |
| Text.Slice | src/core/document_processor.py:80 | `content[start:end]` is the plain subsequence for in-range bounds and never longer than the string |
| Text.NatToString | src/api/documents.py:187 | `str(n)` is non-empty and has one digit exactly for n < 10 |
| Text.NatToStringInjective | src/api/documents.py:187 | distinct numbers print differently |
| DocumentProcessor.GenerateDocumentId | src/core/document_processor.py:31-46 | the id is the first 16 hex digits of SHA-256 over the content followed by `_key:value` for each of title, source, author and type that is present |
| DocumentProcessor.HashInputIgnoresOtherKeys | src/core/document_processor.py:39-42 | metadata keys other than the four relevant ones do not affect the document id |
| DocumentProcessor.HashInputSeparatesContent | src/core/document_processor.py:36-46 | under the same metadata, different contents give different hash inputs |
| DocumentProcessor.EffectiveConfig | src/core/document_processor.py:61-65 | a missing or zero chunk size or overlap falls back to the settings, and the overlap is exactly `min(asked, size // 2)` |
| DocumentProcessor.BoundaryFrom | src/core/document_processor.py:109-119 | the walk-back returns `position` or a cut inside the 100-character window |
| DocumentProcessor.WordBoundary | src/core/document_processor.py:109-119 | `_find_word_boundary` returns `position` or a cut in `(max(0, position-100)+1, position+1]` |
| DocumentProcessor.BoundaryFromIsLastBreak | src/core/document_processor.py:113-119 | the scan stops just after the last break character it meets, or returns `position` when there is none |
| DocumentProcessor.WordBoundaryIsLastBreak | src/core/document_processor.py:109-119 | the cut falls just after the last space, newline, tab or punctuation mark within 100 characters before `position`, or at `position` when there is none |
| DocumentProcessor.FindWordBoundary | src/core/document_processor.py:109-119 | the backward loop with its early return computes `WordBoundary` |
| DocumentProcessor.WindowEnd | src/core/document_processor.py:73-77 | a window that reaches the end of the content ends there; otherwise it ends at `WordBoundary(content, start + size)` |
| DocumentProcessor.ChunkMetadataFields | src/core/document_processor.py:89-94 | each chunk's metadata records its length and whether it is first and last, and keeps every other caller key |
| DocumentProcessor.EmitAllWellFormed | src/core/document_processor.py:80-97 | the loop appends chunks numbered 0, 1, 2, ... whose text is the non-empty stripped text of their window |
| DocumentProcessor.EmitAllPrefix | src/core/document_processor.py:71-104 | the loop only ever appends to the chunk list |
| DocumentProcessor.EmitAllFromWindows | src/core/document_processor.py:83-97 | every chunk carries the start and end of a window the loop visited |
| DocumentProcessor.EmitAllHits | src/core/document_processor.py:80-97 | a window whose stripped text is non-empty produces a chunk |
| DocumentProcessor.ChunkPass | src/core/document_processor.py:73-97 | one pass of the loop body computes the window end and appends that window's chunk when its text is not blank |
| DocumentProcessor.RunAsWrittenStep | src/core/document_processor.py:71-104 | one pass of the loop as written, followed by the rest of the run or the `start >= end` exit |
| DocumentProcessor.ChunkDocumentBounded | src/core/document_processor.py:48-107 | `chunk_document` exactly as written, stopped after `fuel` passes |
| DocumentProcessor.ChunkLoopBounded | src/core/document_processor.py:67-107 | the `while start < len(content)` loop as written, within the fuel bound |
| DocumentProcessor.WindowsAsWrittenDiverge | src/core/document_processor.py:100-104 | with a positive overlap the `start >= end` guard never fires, so no fuel bound is enough |
| DocumentProcessor.TailIsFixedPoint | src/core/document_processor.py:73-104 | for any valid positive overlap, once a window reaches the end, the next start is `len - overlap`, and from there the loop comes back to the same start |
| DocumentProcessor.AsWrittenNeverReturns | src/core/document_processor.py:48-107 | for non-blank content and a positive effective overlap, `chunk_document` never returns |
| DocumentProcessor.DefaultsNeverReturn | src/core/document_processor.py:61-104 | with the default 1000/200 settings a twelve-character document already loops forever |
| DocumentProcessor.AsWrittenSinglePass | src/core/document_processor.py:100-104 | with an overlap of 0 or less the loop makes one pass and chunks only the first window |
| DocumentProcessor.AsWrittenAgreesOnOneWindow | src/core/document_processor.py:48-107 | with an overlap of 0 or less and content within one chunk, `chunk_document` as written returns exactly the corrected chunks |
| DocumentProcessor.WindowsAsWritten | src/core/document_processor.py:71-104 | the loop as written, within a fuel bound; `WindowsAsWrittenDiverge` and `TailIsFixedPoint` show it never stops for a positive overlap |
| DocumentProcessor.ChunkDocumentAsWritten | src/core/document_processor.py:48-107 | `chunk_document` as written, within a fuel bound; `AsWrittenNeverReturns`, `AsWrittenSinglePass` and `AsWrittenAgreesOnOneWindow` state when it returns and what |
| DocumentProcessor.WindowsStep | src/core/document_processor.py:71-104 | one pass of the corrected loop, followed by the rest of the run |
| DocumentProcessor.ChunkDocument | src/core/document_processor.py:48-107 | the corrected chunker (it stops at the end of the content or when the start no longer moves forward) computes `Chunks` |
| DocumentProcessor.WindowsOrdered | src/core/document_processor.py:71-104 | the corrected loop visits windows with strictly increasing starts, all inside the content |
| DocumentProcessor.WindowsCover | src/core/document_processor.py:71-104 | with a chunk size of at least 198 and a non-negative overlap, every position is inside some window |
| DocumentProcessor.ChunksWellFormed | src/core/document_processor.py:48-107 | blank content gives no chunks; the chunks are numbered without gaps, are the stripped text of their windows with the computed metadata, and are ordered by start |
| DocumentProcessor.Windows | src/core/document_processor.py:71-104 | the windows the corrected loop visits; `WindowsOrdered`, `WindowsCover` and `WindowsStep` state their order, cover and steps |
| DocumentProcessor.Chunks | src/core/document_processor.py:48-107 | the corrected chunker's result; `ChunksWellFormed` and `ChunksCoverContent` state its numbering, texts and cover |
| DocumentProcessor.EmitAllOrdered | src/core/document_processor.py:83-100 | chunks emitted from ordered windows have strictly increasing start offsets |
| DocumentProcessor.ChunksCoverContent | src/core/document_processor.py:48-107 | with a chunk size of at least 198 and a non-negative effective overlap, every non-whitespace character of the content is inside some chunk |
| DocumentProcessor.WindowTextNonEmpty | src/core/document_processor.py:80-83 | a window holding a non-whitespace character is not dropped as blank |
| DocumentProcessor.ChunkTexts | src/core/document_processor.py:238-242 | `get_chunk_texts` gives one text per chunk, in order |
| DocumentProcessor.ChunkMetadataList | src/core/document_processor.py:244-247 | `get_chunk_metadata` gives one metadata dictionary per chunk, in order |
| DocumentProcessor.FirstReservedFrom | src/core/document_processor.py:216-219 | the reserved-key scan finds a reserved key the dictionary holds, or shows it holds none |
| DocumentProcessor.ValidateDocument | src/core/document_processor.py:197-221 | the verdict and message of `validate_document`, with its checks in source order |
| DocumentProcessor.ValidationAccepts | src/core/document_processor.py:197-221 | a document is accepted exactly when its content is non-blank, is within `max_document_size_mb * 1_000_000` characters, and its metadata is absent, falsy, or a dictionary without reserved keys |
| DocumentProcessor.Validation | src/core/document_processor.py:197-221 | the first failing check of `validate_document`; `ValidationAccepts` states exactly when none fails and `ValidateDocument` the message of each |
| DocumentProcessor.ReservedKeyIsPresent | src/core/document_processor.py:216-219 | a reserved-key rejection names a reserved key the metadata really holds |
| DocumentProcessor.NonBlankLines | src/core/document_processor.py:231 | the blank-line step keeps only non-empty stripped lines; `NonBlankLinesConcat` shows it is exactly the stripped non-blank lines, in order |
| DocumentProcessor.KeepPrintable | src/core/document_processor.py:234 | the character filter keeps only characters of code 32 or above, newlines and tabs; `KeepPrintableConcat` shows it keeps every such character, in order |
| DocumentProcessor.JoinWordsSpaceSeparated | src/core/document_processor.py:228 | joining whitespace-free words with single spaces leaves only single inner spaces |
| DocumentProcessor.JoinNonEmpty | src/core/document_processor.py:228 | a join whose first part is non-empty is non-empty |
| DocumentProcessor.NormalizedIsSpaceSeparated | src/core/document_processor.py:228 | after `' '.join(content.split())`, the only whitespace left is single inner spaces |
| DocumentProcessor.DropBlankLinesIdentity | src/core/document_processor.py:231 | a single line without whitespace at its ends passes the blank-line step unchanged |
| DocumentProcessor.KeepPrintableIdentity | src/core/document_processor.py:234 | the character filter changes nothing when every character is printable |
| DocumentProcessor.PreprocessHasNoControlCharacters | src/core/document_processor.py:223-236 | preprocessed content contains no character below code 32 |
| DocumentProcessor.NonBlankLinesConcat | src/core/document_processor.py:231 | the blank-line step distributes over concatenation, and keeps one line exactly when it strips to a non-empty string, as that stripped line |
| DocumentProcessor.KeepPrintableConcat | src/core/document_processor.py:234 | the character filter distributes over concatenation, and keeps one character exactly when it is printable |
| DocumentProcessor.KeepPrintableNonSpace | src/core/document_processor.py:223-236 | filtering printable characters and taking non-whitespace characters commute |
| DocumentProcessor.NonSpaceCharsOfJoin | src/core/document_processor.py:228 | joining whitespace-free words with spaces keeps exactly their characters as the non-whitespace ones |
| DocumentProcessor.PreprocessKeepsText | src/core/document_processor.py:223-236 | preprocessing keeps every printable non-whitespace character of the input, in order, and adds none |
| DocumentProcessor.Preprocess | src/core/document_processor.py:223-236 | `preprocess_content`; `PreprocessKeepsText`, `PreprocessHasNoControlCharacters` and `NormalizedIsSpaceSeparated` state what it keeps and what it removes |
| DocumentProcessor.ContainsSubstring | src/core/document_processor.py:160-163 | content containing an indicator also contains every substring of that indicator |
| DocumentProcessor.MarkdownIndicatorReduces | src/core/document_processor.py:160-163 | content holding any markdown indicator holds one of `# `, `*`, a backtick, `[` or `](` |
| DocumentProcessor.MarkdownIndicatorsReduce | src/core/document_processor.py:160-163 | the markdown test holds exactly when one of `# `, `*`, a backtick, `[` or `](` occurs |
| DocumentProcessor.LooksLikeCode | src/core/document_processor.py:152-158 | `_looks_like_code`; `ContentTypeFirstMatch` shows it decides the type first |
| DocumentProcessor.LooksLikeMarkdown | src/core/document_processor.py:160-163 | `_looks_like_markdown`; `MarkdownIndicatorsReduce` reduces it to five indicators |
| DocumentProcessor.LooksLikeHtml | src/core/document_processor.py:165-168 | `_looks_like_html`; `HtmlIgnoresCase` shows it ignores case |
| DocumentProcessor.HtmlIgnoresCase | src/core/document_processor.py:165-168 | the HTML test answers the same for content and its lower-cased form |
| DocumentProcessor.ContentType | src/core/document_processor.py:135-143 | the content type; `ContentTypeFirstMatch` characterises each of the four answers |
| DocumentProcessor.ContentTypeFirstMatch | src/core/document_processor.py:135-143 | exactly one of four types; code is checked first, then markdown (any of `# `, `*`, a backtick, `[`, `](`), then HTML ignoring case, else text |
| DocumentProcessor.ExtractTitle | src/core/document_processor.py:170-195 | the title loop over the first five lines, then the HTML title, then the first line, computes `TitleOf` |
| DocumentProcessor.MarkdownTitleNonEmpty | src/core/document_processor.py:175-180 | a title taken from a markdown heading is non-empty and stripped |
| DocumentProcessor.TitleShape | src/core/document_processor.py:170-195 | a title has no whitespace at either end; a heading title is non-empty; a first-line title is non-empty, shorter than 100 characters and does not end with a full stop |
| DocumentProcessor.TitleOf | src/core/document_processor.py:170-195 | `_extract_title`; `ExtractTitle` computes it step by step, and `TitleShape` and `MarkdownTitleNonEmpty` state its shape |
| DocumentProcessor.LineCountIsLines | src/core/document_processor.py:131 | `content.count('\n') + 1` equals the number of `split('\n')` pieces |
| DocumentProcessor.WithExtracted | src/core/document_processor.py:121-150 | the extracted statistics, content type and non-empty title are written over a copy of the base; other base keys, and the base's own title when none is extracted, are kept; no other key is added |
| DocumentProcessor.ExtractMetadata | src/core/document_processor.py:121-150 | `extract_metadata` records the length, word count, line count (the number of lines) and content type, and a non-empty title; without an extracted title the base's title is kept; it keeps the base's other keys and adds no other key |
| JobManager.ParseStatus | src/core/job_manager.py:175 | `JobStatus(v)` parses to the status whose value is `v` |
| JobManager.ParseStatusRoundTrip | src/core/job_manager.py:16-22 | parsing inverts `.value`: each status parses back from its value and from nothing else |
| JobManager.NewJob | src/core/job_manager.py:92-98 | a new job is QUEUED, with nothing processed, no results and no timestamps besides its creation time |
| JobManager.StatusUpdated | src/core/job_manager.py:175-180 | a status update sets the status; `started_at` is set only on the first move to PROCESSING; a terminal status sets `completed_at`; nothing else changes |
| JobManager.StartedAtSetOnce | src/core/job_manager.py:177-178 | once set, `started_at` survives every later status update |
| JobManager.Progressed | src/core/job_manager.py:193-198 | both counts are recorded and, for a positive total, the percentage is `processed / total * 100`; nothing else changes |
| JobManager.WithResult | src/core/job_manager.py:210-216 | the result is appended and only the counter matching its status goes up |
| JobManager.SuccessResults | src/core/job_manager.py:229-239 | one completed result per result dictionary, numbered from 0 |
| JobManager.FailureResults | src/core/job_manager.py:242-250 | one failed result per error dictionary, with index -1 when none is given |
| JobManager.CompletedJob | src/core/job_manager.py:226-256 | completion appends the successes, then the errors, raises both counters, and sets COMPLETED, the completion time, the processed count and 100%; the id, totals, creation and start times, collection and error message are unchanged |
| JobManager.FailedJob | src/core/job_manager.py:272-275 | `fail_job` sets FAILED, the message and the completion time, and nothing else |
| JobManager.ExpiredIds | src/core/job_manager.py:287-292 | a job expires exactly when it was created before the cutoff and is in a terminal status |
| JobManager.WithStatus | src/core/job_manager.py:123-126 | the status filter keeps exactly the jobs with that status |
| JobManager.InsertNewestFirst | src/core/job_manager.py:132 | inserting into a newest-first list keeps it newest first and adds exactly that job |
| JobManager.SortNewestFirst | src/core/job_manager.py:132 | the sort by `created_at`, reversed, is newest first and a permutation of its input |
| JobManager.TakePrefix | src/core/job_manager.py:135 | `jobs[:limit]` is a prefix of length `min(limit, n)`, or `n + limit` for a negative limit |
| JobManager.Keep | src/core/job_manager.py:294-295 | deleting ids keeps exactly the other ids, without duplicates; `KeepConcat` and `KeepOne` show their order is kept |
| JobManager.KeepConcat | src/core/job_manager.py:294-295 | deleting ids distributes over concatenation, so the kept ids stay in their order |
| JobManager.KeepOne | src/core/job_manager.py:294-295 | a single id is kept exactly when it is not deleted |
| JobManager.JobManager.constructor | src/core/job_manager.py:78-80 | the registry starts empty |
| JobManager.JobManager.Listed | src/core/job_manager.py:120 | `list(self.jobs.values())` is the jobs in insertion order |
| JobManager.JobManager.CreateBatchJob | src/core/job_manager.py:82-104 | registers a QUEUED job for `len(documents)` documents under the fresh id, returns that id, and changes nothing else |
| JobManager.JobManager.GetJobStatus | src/core/job_manager.py:106-114 | returns the job stored under the id, or None exactly when it is unknown |
| JobManager.JobManager.CancelJob | src/core/job_manager.py:139-162 | returns true exactly for a known non-terminal job, which becomes CANCELLED with a completion time and loses its running task; otherwise nothing changes |
| JobManager.JobManager.UpdateJobStatus | src/core/job_manager.py:164-183 | an unknown id or an unrecognised status changes nothing; otherwise the job becomes `StatusUpdated` |
| JobManager.JobManager.UpdateJobProgress | src/core/job_manager.py:185-200 | an unknown id changes nothing; otherwise the job becomes `Progressed` |
| JobManager.JobManager.AddJobResult | src/core/job_manager.py:202-216 | an unknown id changes nothing; otherwise the job becomes `WithResult` |
| JobManager.JobManager.CompleteJob | src/core/job_manager.py:218-262 | an unknown id changes nothing; otherwise the job becomes `CompletedJob` and its running task is dropped |
| JobManager.JobManager.FailJob | src/core/job_manager.py:264-281 | an unknown id changes nothing; otherwise the job becomes `FailedJob` and its running task is dropped |
| JobManager.JobManager.CleanupOldJobs | src/core/job_manager.py:283-299 | exactly the terminal jobs created before `now - max_age_hours` are removed; every other job stays, in order |
| JobManager.JobManager.CollectExpired | src/core/job_manager.py:287-292 | the first cleanup loop collects exactly the expired ids |
| JobManager.JobManager.RemoveJobs | src/core/job_manager.py:294-295 | the deletion loop removes exactly the listed ids from the map and from the key order |
| JobManager.JobManager.GetJobCount | src/core/job_manager.py:301-309 | one entry per status value, each the number of jobs in that status |
| JobManager.Without | src/core/job_manager.py:295 | `del` removes the id from the key order and keeps the other keys |
| JobManager.KeepNothing | src/core/job_manager.py:294-295 | deleting no ids keeps the order |
| JobManager.KeepMore | src/core/job_manager.py:294-295 | deleting ids one at a time is deleting them as a set |
| JobManager.CountStatus | src/core/job_manager.py:305-308 | a status count never exceeds the number of jobs |
| JobManager.CountStatusAppend | src/core/job_manager.py:305-308 | counting one more job raises only its own status's count |
| JobManager.CountsSumToTotal | src/core/job_manager.py:301-309 | the five counts of `get_job_count` add up to the number of jobs |
| JobManager.CountsOfAppend | src/core/job_manager.py:305-308 | counting one more job keeps every entry equal to its status count |
| JobManager.GetAllJobsPool | src/core/job_manager.py:116-137 | the listing is the sorted, truncated pool of registered jobs that pass the filter |
| JobManager.GetAllJobsSpec | src/core/job_manager.py:116-137 | an unknown status filter lists nothing; otherwise every listed job is registered and has the filtered status, the list is newest first, and a non-negative limit bounds it |
| JobManager.GetAllJobsComplete | src/core/job_manager.py:116-137 | with a limit no smaller than the number of jobs, every job passing the filter is listed |
| JobManager.JobManager.GetAllJobs | src/core/job_manager.py:116-137 | `get_all_jobs`; `GetAllJobsPool`, `GetAllJobsSpec` and `GetAllJobsComplete` state what it lists |
| JobManager.ListingOf | src/core/job_manager.py:132-135 | sorting and truncating keeps the order, loses no job under a large limit, and invents none |
| JobManager.ListedIsRegistry | src/core/job_manager.py:120 | the listed jobs are exactly the registered ones |
| JobManager.SortKeepsElements | src/core/job_manager.py:132 | sorting keeps the length and the elements |
| JobManager.PrefixElements | src/core/job_manager.py:135 | a prefix holds only elements of the list |
| JobManager.NewestFirstOrdersAll | src/core/job_manager.py:132 | in a list ordered newest first pair by pair, every earlier job is at least as new as every later one |
| JobManager.NewestFirstPrefix | src/core/job_manager.py:135 | a prefix of a newest-first list is newest first |
| VectorStore.DefaultIdsDistinct | src/core/vector_store.py:134 | default ids `doc_{k}` are distinct for distinct indexes |
| VectorStore.RowAtSpec | src/core/vector_store.py:131-151 | row k exists exactly when no supplied parallel list is too short, and holds the k-th document, id (or `doc_k`), metadata (or `{}`) and embedding |
| VectorStore.RowAt | src/core/vector_store.py:131-151 | the row built for input k; `RowAtSpec` states when it exists and what it holds |
| VectorStore.RowLimit | src/core/vector_store.py:131-151 | rows can be built below a limit no larger than the number of documents |
| VectorStore.RowLimitSpec | src/core/vector_store.py:131-151 | a row builds exactly below that limit |
| VectorStore.BuildRowsSpec | src/core/vector_store.py:129-151 | a batch builds exactly when each of its rows does, with the rows in order; otherwise it fails with the first failing row's error |
| VectorStore.BuildRowsStep | src/core/vector_store.py:131-151 | building one more row appends it |
| VectorStore.BuildRowsStopsAtError | src/core/vector_store.py:131-151 | the first row that fails decides the batch's error |
| VectorStore.PrependPrepend | src/core/vector_store.py:161-162 | committing two batches in turn is committing their concatenation |
| VectorStore.BatchAtSpec | src/core/vector_store.py:115-162 | a committed batch holds the rows of `[b, min(b + size, n))` in order |
| VectorStore.BatchAt | src/core/vector_store.py:115-162 | one batch transaction; `BatchAtSpec` and `BatchAtRows` state what it commits |
| VectorStore.RowsOfConcat | src/core/vector_store.py:161-162 | the rows of adjacent index ranges concatenate |
| VectorStore.AddFromSuccessShape | src/core/vector_store.py:115-167 | a run that returns has committed one row per remaining input and returns exactly what it committed |
| VectorStore.AddFromSuccess | src/core/vector_store.py:115-167 | a run that returns has committed the row of every remaining input, in input order |
| VectorStore.AddFromFailureStops | src/core/vector_store.py:115-171 | a failing run stops at a batch boundary; earlier batches stay committed and the failing batch commits nothing |
| VectorStore.AddFromNoCollection | src/core/vector_store.py:126-127 | without the collection the first batch raises and nothing is committed |
| VectorStore.AddFromFailureKeeps | src/core/vector_store.py:115-171 | what a failing run leaves committed is the rows of its first inputs, in order |
| VectorStore.AddFrom | src/core/vector_store.py:115-171 | the batch loop from input b; `AddFromSuccess`, `AddFromFailureStops`, `AddFromFailureKeeps` and `AddFromRunsBatchRanges` state what it commits and returns |
| VectorStore.AddDocumentsRows | src/core/vector_store.py:92-171 | a zero batch size raises, a negative one returns `[]`; every committed row is the row of its input, in order; a run that returns has stored and returned one row per document |
| VectorStore.AddDocumentsSpec | src/core/vector_store.py:92-171 | `add_documents`; `AddDocumentsRows` states its rows and result |
| VectorStore.RunBegins | src/core/vector_store.py:111 | before the first batch nothing is committed |
| VectorStore.RunEnds | src/core/vector_store.py:167 | after the last batch, the result is everything committed |
| VectorStore.RunStops | src/core/vector_store.py:169-171 | a failing batch ends the run with the earlier batches committed |
| VectorStore.RunContinues | src/core/vector_store.py:155-162 | a committed batch moves its rows into the results |
| VectorStore.BatchRangesPartition | src/core/vector_store.py:115-116 | `range(0, n, size)` with `min` partitions the inputs into consecutive non-empty batches of at most `size` |
| VectorStore.BatchRangesWithin | src/core/vector_store.py:115-116 | every range of `range(0, n, size)` with `min` lies inside the inputs |
| VectorStore.AddFromRunsBatchRanges | src/core/vector_store.py:115-117 | the batch loop runs exactly one transaction per range of `BatchRanges`, in order, until one fails |
| VectorStore.BuildBatch | src/core/vector_store.py:130-151 | the row-building loop computes `BuildRows` |
| VectorStore.RunBatch | src/core/vector_store.py:119-162 | one batch transaction: look up the collection, build the rows, commit |
| VectorStore.Store.constructor | src/core/vector_store.py:12-13 | an empty store |
| VectorStore.Store.GetCollection | src/core/vector_store.py:44-59 | the collection with this name, or None exactly when there is none |
| VectorStore.Store.CreateCollection | src/core/vector_store.py:15-42 | a new name gets a collection with the next id and the given fields; a duplicate name raises and changes nothing |
| VectorStore.Store.AddDocuments | src/core/vector_store.py:92-171 | appends exactly the committed rows of `AddDocumentsSpec` and returns its result; collections are unchanged |
| VectorStore.BatchAtRows | src/core/vector_store.py:115-151 | a full batch that commits holds the rows of its `batch_size` inputs, in order |
| VectorStore.NextBatch | src/core/vector_store.py:119-162 | a failing batch ends the run with the rows committed so far; a committing batch moves its rows from the rest of the run to the rows done |
| VectorStore.Store.AddBatches | src/core/vector_store.py:115-167 | the batch loop commits and returns what `AddFrom` says |
| DocumentsApi.WithCollection | src/api/documents.py:104-126 | a missing collection is created with the next id; an existing one and all other collections are left alone |
| DocumentsApi.DocumentIdFor | src/api/documents.py:139-141 | a non-empty caller id is used as given; otherwise the id is the first 16 hex digits of SHA-256 over `HashInput(content, metadata)` |
| DocumentsApi.StoredChunkMeta | src/api/documents.py:176-183 | stored chunk metadata is the chunk's own metadata overridden by document id, chunk index, offsets and total chunk count |
| DocumentsApi.StoredMetas | src/api/documents.py:174-184 | one stored metadata dictionary per chunk, in order |
| DocumentsApi.ChunkIdsDistinct | src/api/documents.py:187 | `{document_id}_chunk_{i}` ids differ for different `i` |
| DocumentsApi.ChunkIds | src/api/documents.py:187 | one id per chunk, the i-th being `{document_id}_chunk_{i}`, all distinct |
| DocumentsApi.SourceChunkingNeverReturns | src/api/documents.py:159-164 | for a valid document whose preprocessed content is non-blank and whose effective overlap is positive, the `chunk_document` call as written never returns, for any fuel |
| DocumentsApi.Ingest | src/api/documents.py:86-224 | the outcome of `ingest_document`, chunking with the corrected chunker: the collection exists afterwards; rows only grow; a 400 stores nothing; errors are 400 or 500; an invalid document gets 400 with the validation message; success names the chosen document id |
| DocumentsApi.Stored | src/api/documents.py:193-224 | storing keeps the committed rows; an exception is answered with 500; success answers "completed" for the document |
| DocumentsApi.IngestStoresChunks | src/api/documents.py:159-218 | a valid document's stored rows are its chunks from the corrected chunker, in order, with their ids and stored metadata and no embedding; no chunks gives 400; a successful store counts every chunk |
| DocumentsApi.IngestDocument | src/api/documents.py:86-224 | the endpoint, step by step on the store and with the corrected chunker, changes the store and answers as `Ingest` says |
| DocumentsApi.StoreChunks | src/api/documents.py:171-218 | chunk texts, metadata and ids are built and stored as `Stored` says |
| DocumentsApi.BuildChunkMetadata | src/api/documents.py:174-184 | the metadata loop builds `StoredMetas` |
| DocumentsApi.ErrorRecord | src/api/documents.py:284-288 | an error dictionary has exactly the document index, the request's document id and the exception's text |
| DocumentsApi.Advance | src/api/documents.py:279-289 | each document adds exactly one entry, a response on success or an error dictionary on failure, and the earlier entries are kept as prefixes |
| DocumentsApi.IngestFromStep | src/api/documents.py:279-289 | one turn of the loop, followed by the rest of the run |
| DocumentsApi.IngestFromAccounts | src/api/documents.py:279-289 | a failure does not stop the loop: each document adds exactly one response or one error, and earlier entries and stored rows are kept |
| DocumentsApi.IngestFromReports | src/api/documents.py:284-289 | error dictionaries report document positions in strictly increasing order, within the batch |
| DocumentsApi.IngestFromLastSuccess | src/api/documents.py:457-463 | the last progress value moves exactly when a later document succeeds |
| DocumentsApi.IngestFrom | src/api/documents.py:279-289 | the per-document loop from position k; `IngestFromStep`, `IngestFromAccounts`, `IngestFromReports` and `IngestFromLastSuccess` state what it appends |
| DocumentsApi.IngestAll | src/api/documents.py:276-290 | the whole loop; `IngestEach` runs it and `IngestFromAccounts` accounts for every document |
| DocumentsApi.IngestNext | src/api/documents.py:281-289 | one turn of the synchronous loop appends the document's response or its error dictionary, exactly as the loop's specification advances |
| DocumentsApi.IngestEach | src/api/documents.py:276-290 | the synchronous loop leaves the store and the lists as `IngestAll` says |
| DocumentsApi.DeclaredResponse | src/api/models.py:57-63 | `BatchIngestResponse` as declared accepts a reply exactly when `job_id` and `status_endpoint` are strings |
| DocumentsApi.OptionalResponse | src/api/models.py:57-63 | with the two fields optional every reply is accepted unchanged, and wherever the declared model accepts a reply the two agree |
| DocumentsApi.SyncAlwaysFails | src/api/documents.py:292-304 | the synchronous mode always answers 500 after ingesting; the async reply is accepted |
| DocumentsApi.OptionalResponseAcceptsReplies | src/api/documents.py:267-298 | with optional fields the sync reply reports the batch completed and the async reply names the job and its status endpoint |
| DocumentsApi.BatchIngestDocuments | src/api/documents.py:227-304 | too many documents gives 400 and a missing collection 404, changing nothing; async registers a QUEUED job, appends its id to the registry order when new, and replies with it; sync ingests every document as `IngestAll` says, with the corrected chunker |
| DocumentsApi.ProgressedTwice | src/api/documents.py:462-463 | a later progress update overwrites an earlier one |
| DocumentsApi.ProgressStep | src/api/documents.py:462-463 | reporting progress after a success leaves the job as the run's last success says |
| DocumentsApi.ResponseRecord | src/api/models.py:15-21 | the dictionary form of a response holds exactly its five fields, the status among them |
| DocumentsApi.ResponseRecords | src/api/models.py:15-21 | one dictionary per response, in order |
| DocumentsApi.AsWrittenFailsAfterSuccess | src/api/documents.py:475-481 | as written, a registered job with any success ends FAILED with the AttributeError's text, and no results or successes are recorded |
| DocumentsApi.FixedCompletes | src/core/job_manager.py:218-262 | given dictionaries, the job completes with one numbered result per success, then one per error, and matching counts |
| DocumentsApi.IngestWithProgress | src/api/documents.py:457-472 | the background loop leaves the store, the lists and the job's progress as `IngestAll` says |
| DocumentsApi.IngestAndReport | src/api/documents.py:458-472 | one turn of the background loop, with progress after a success |
| DocumentsApi.ProcessBatchJob | src/api/documents.py:441-481 | the background run with `complete_job` called as at line 475 and each document chunked by the corrected chunker: PROCESSING, the loop with progress, then `complete_job` with response objects, whose failure fails the job |
| DocumentsApi.ProcessBatchJobFixed | src/api/documents.py:441-481 | the background run with the responses converted to dictionaries |
| DocumentsApi.FixedJobAccountsForEveryDocument | src/api/documents.py:441-481 | the fixed run completes a registered job with every document accounted for: one result per success and per failure, and `processed_documents` equal to the batch size |

## Left out

- Logging, `gc.collect()`, `psutil` memory reports (`log_memory_usage`) and timing are left out. `processing_time_ms` is the constant 0, as the code sets it.
- SHA-256 is the parameter `sha256`; its internals are not modelled. `uuid4()` and `datetime.utcnow()` are parameters (`jobId`, `now`).
- The database is a sequence of committed rows plus a collections map. Sessions, SQL, refresh, database-assigned row ids, `to_dict`, timestamps and the tsvector trigger are not modelled. Whether a commit succeeds is the parameter `failingCommit`. The text of a driver's commit error is the placeholder `CommitFailureText`.
- FastAPI routing, dependency injection and request parsing are left out. Request and response models are datatypes. Of a Pydantic validation error, only the first line of its message is modelled (`SchemaMessage`).
- `BackgroundTasks` and asyncio scheduling are left out. The async mode registers the job, and the background run is the separate method `ProcessBatchJob`. The job manager's `_running_tasks` is a set of ids that nothing in the core fills, so only its removals are modelled.
- The store is reached only through `ingest_document`. A failure to create the collection (500 "Failed to create collection") cannot happen in the model: creation fails only for a duplicate name, and the preceding lookup has just ruled that out.
- `create_collection` returns the new record; `ingest_document` only tests it for truthiness.
- Strings are sequences of characters. Whitespace, `lower()` and `isspace()` are ASCII only: no Unicode whitespace, case mapping or normalisation.
- Floats are reals: the progress percentage and embeddings. Rounding of `processed / total * 100` is not modelled.
- DocumentProcessor.ChunkDocumentBounded: the chunker as written is run with a fuel bound (None when the fuel runs out), because it does not always stop. The corrected `ChunkDocument` needs no fuel.
- DocumentsApi.Ingest: ingestion chunks with the corrected chunker (`ChunkDocument`, `Chunks`), not with `chunk_document` as written. The call at src/api/documents.py:159-164 never returns for a valid document with non-blank preprocessed content and a positive effective overlap (`SourceChunkingNeverReturns`); this includes the default 1000/200 settings. The two chunkers agree for an overlap of 0 or less and content within one chunk (`AsWrittenAgreesOnOneWindow`). What the model promises about ingestion therefore holds for the intended chunker, not for the endpoint as written.
- DocumentsApi.IngestDocument: runs the corrected chunker, as `DocumentsApi.Ingest` above.
- DocumentsApi.IngestStoresChunks: the stored chunks are those of the corrected chunker, as `DocumentsApi.Ingest` above.
- DocumentsApi.BatchIngestDocuments: the sync mode ingests each document with the corrected chunker, as `DocumentsApi.Ingest` above.
- DocumentsApi.ProcessBatchJob: each document is ingested with the corrected chunker, as `DocumentsApi.Ingest` above; only the `complete_job` call is as written.
- Common.Value: metadata values are None, booleans, integers and strings. Floats, lists and nested dictionaries, and their `str` rendering in `Common.Render` and in the document-id hash input, are not modelled.
- JobManager.SortNewestFirst: the order among jobs created at the same instant (Python's sort with `reverse=True` is stable and keeps them in insertion order) is not stated.
- JobManager.JobManager.CleanupOldJobs: the cutoff `datetime.utcnow() - timedelta(hours=max_age_hours)` is computed on unbounded integers, so Python's `OverflowError` for a date outside years 1 to 9999 (roughly `max_age_hours` above 1.8e7 or below -7e7) is not modelled. There the source raises and removes nothing, while the model removes the terminal jobs created before the out-of-range cutoff (none for a very large age, all for a very negative one). The source's default `max_age_hours=24` is the parameter's default value.
- JobManager.JobManager.GetJobStatus: returns the job record, not its `to_dict()` rendering; ISO timestamps are not modelled.
- The other store operations (search, listing, deletion, statistics) and the other endpoints (listing and deleting documents, job status and cancellation routes) are outside this model. `embedding_client.py` and `embedding_service.py` are not part of this model either.
- `BatchJob.__post_init__` and `JobResult`'s default fields are folded into `NewJob` and the result constructors.

## Findings

| source | as written | input that shows it | evidently intended | confidence | as-written member | corrected member |
|---|---|---|---|---|---|---|
| src/core/document_processor.py:100-104 | after each pass, `start = end - overlap`, and the loop exits only when `start >= end`, which never happens for a positive overlap; once a window reaches the end of the content, the loop returns to `len - overlap` forever | `chunk_document("Hello world.")` with the default chunk size 1000 and overlap 200 | stop after the window that reaches the end of the content, or when the start no longer moves forward | not executed | DocumentProcessor.AsWrittenNeverReturns | DocumentProcessor.ChunksWellFormed |
| src/api/documents.py:475 | `process_batch_job` passes `DocumentIngestResponse` objects to `complete_job`, which calls `result.get(...)` (src/core/job_manager.py:231); that raises AttributeError, and the handler fails the job | a background batch of one valid document no longer than its `chunk_size`, sent with `chunk_overlap=-1` (so `chunk_document` makes one pass and returns) | pass the responses as dictionaries (`model_dump()`), so the job completes with one result per success | not executed | DocumentsApi.AsWrittenFailsAfterSuccess | DocumentsApi.FixedJobAccountsForEveryDocument |
| src/api/documents.py:292-298 | the sync mode builds `BatchIngestResponse(job_id=None, status_endpoint=None, ...)`, but both fields are required `str` (src/api/models.py:59,62), so validation fails and the handler answers 500 after every document was ingested | an empty batch, or one whose documents all fail validation, with `processing_mode="sync"` and an existing collection | declare `job_id` and `status_endpoint` as `Optional[str]` | not executed | DocumentsApi.SyncAlwaysFails | DocumentsApi.OptionalResponseAcceptsReplies |
