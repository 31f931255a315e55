/**
 * The in-memory registry of batch ingestion jobs (src/core/job_manager.py).
 *
 * The registry maps job ids to job records. Python dictionaries keep
 * insertion order, and both `get_all_jobs` (through its stable sort) and
 * `cleanup_old_jobs` depend on it, so the registry keeps the order of its
 * keys next to the map. Timestamps are microseconds since the epoch and,
 * like the job ids `uuid4` would produce, are passed in by the caller.
 */
module JobManager {
  import opened Common
  import opened Text

  // ---------------------------------------------------------------------------
  // Statuses, results and job records
  // ---------------------------------------------------------------------------

  datatype JobStatus = Queued | Processing | Completed | Failed | Cancelled

  /** `JobStatus.value`. */
  function StatusValue(s: JobStatus): string {
    match s
    case Queued => "queued"
    case Processing => "processing"
    case Completed => "completed"
    case Failed => "failed"
    case Cancelled => "cancelled"
  }

  /** `JobStatus(v)`: the status whose value is `v`; None where Python raises `ValueError`. */
  function ParseStatus(v: string): (r: Option<JobStatus>)
    ensures r.Some? ==> StatusValue(r.value) == v
  {
    if v == "queued" then Some(Queued)
    else if v == "processing" then Some(Processing)
    else if v == "completed" then Some(Completed)
    else if v == "failed" then Some(Failed)
    else if v == "cancelled" then Some(Cancelled)
    else None
  }

  /** Parsing is the inverse of `.value`: every status parses back from its value, and nothing else parses. */
  lemma ParseStatusRoundTrip(s: JobStatus, v: string)
    ensures ParseStatus(StatusValue(s)) == Some(s)
    ensures ParseStatus(v) == Some(s) <==> v == StatusValue(s)
  {
  }

  /** The statuses a job does not leave on its own: COMPLETED, FAILED and CANCELLED. */
  predicate IsTerminal(s: JobStatus) {
    s == Completed || s == Failed || s == Cancelled
  }

  /** Microseconds since the epoch (`datetime` resolution). */
  type Time = int

  const MicrosPerHour: int := 3_600_000_000

  /**
   * `JobResult`. The fields `complete_job` fills from a result dictionary's
   * `.get` keep whatever value the dictionary holds, so they are `Value`s.
   */
  datatype JobResult = JobResult(
    documentId: Value,
    documentIndex: Value,
    status: string,
    chunksCreated: Value,
    embeddingCount: Value,
    error: Value,
    processingTimeMs: Value)

  /** `BatchJob`. */
  datatype BatchJob = BatchJob(
    id: string,
    collectionName: string,
    status: JobStatus,
    createdAt: Time,
    startedAt: Option<Time>,
    completedAt: Option<Time>,
    totalDocuments: int,
    processedDocuments: int,
    successfulDocuments: int,
    failedDocuments: int,
    results: seq<JobResult>,
    errorMessage: Option<string>,
    progressPercentage: real)

  /** The job `create_batch_job` registers: QUEUED, nothing processed, no results, not started. */
  function NewJob(id: string, collectionName: string, now: Time, total: int): (job: BatchJob)
    ensures job.id == id && job.collectionName == collectionName && job.createdAt == now
    ensures job.status == Queued && job.totalDocuments == total
    ensures job.processedDocuments == 0 && job.successfulDocuments == 0 && job.failedDocuments == 0
    ensures job.results == [] && job.startedAt == None && job.completedAt == None
    ensures job.errorMessage == None && job.progressPercentage == 0.0
  {
    BatchJob(id, collectionName, Queued, now, None, None, total, 0, 0, 0, [], None, 0.0)
  }

  // ---------------------------------------------------------------------------
  // Per-job updates
  // ---------------------------------------------------------------------------

  /**
   * The effect of `update_job_status` with a recognised status on one job.
   * Any move is allowed, out of a terminal status too; `started_at` is set
   * on the first move to PROCESSING only, and a terminal status sets
   * `completed_at`.
   */
  function StatusUpdated(job: BatchJob, status: JobStatus, now: Time): (r: BatchJob)
    ensures r.status == status
    ensures r.startedAt == if status == Processing && job.startedAt == None then Some(now) else job.startedAt
    ensures r.completedAt == if IsTerminal(status) then Some(now) else job.completedAt
    ensures r.(status := job.status, startedAt := job.startedAt, completedAt := job.completedAt) == job
  {
    var job := job.(status := status);
    if status == Processing && job.startedAt == None then job.(startedAt := Some(now))
    else if IsTerminal(status) then job.(completedAt := Some(now))
    else job
  }

  /** Once set, `started_at` never changes, whatever status updates follow. */
  lemma {:induction false} StartedAtSetOnce(job: BatchJob, updates: seq<(JobStatus, Time)>)
    requires job.startedAt.Some?
    ensures ApplyStatusUpdates(job, updates).startedAt == job.startedAt
    decreases |updates|
  {
    if updates != [] {
      StartedAtSetOnce(StatusUpdated(job, updates[0].0, updates[0].1), updates[1..]);
    }
  }

  /** A sequence of `update_job_status` calls on one job. */
  function ApplyStatusUpdates(job: BatchJob, updates: seq<(JobStatus, Time)>): BatchJob
    decreases |updates|
  {
    if updates == [] then job else ApplyStatusUpdates(StatusUpdated(job, updates[0].0, updates[0].1), updates[1..])
  }

  /**
   * The effect of `update_job_progress` on one job: both counts are
   * recorded, and the percentage is recomputed only for a positive total.
   */
  function Progressed(job: BatchJob, processed: int, total: int): (r: BatchJob)
    ensures r.processedDocuments == processed && r.totalDocuments == total
    ensures total > 0 ==> r.progressPercentage * (total as real) == (processed as real) * 100.0
    ensures total <= 0 ==> r.progressPercentage == job.progressPercentage
    ensures r.(processedDocuments := job.processedDocuments, totalDocuments := job.totalDocuments,
               progressPercentage := job.progressPercentage) == job
  {
    var job := job.(processedDocuments := processed, totalDocuments := total);
    if total > 0 then job.(progressPercentage := (processed as real / total as real) * 100.0) else job
  }

  /** The effect of `add_job_result`: the result is appended and the matching counter, if any, goes up. */
  function WithResult(job: BatchJob, result: JobResult): (r: BatchJob)
    ensures r.results == job.results + [result]
    ensures r.successfulDocuments == job.successfulDocuments + (if result.status == "completed" then 1 else 0)
    ensures r.failedDocuments == job.failedDocuments + (if result.status == "failed" then 1 else 0)
    ensures r.(results := job.results, successfulDocuments := job.successfulDocuments,
               failedDocuments := job.failedDocuments) == job
  {
    var job := job.(results := job.results + [result]);
    if result.status == "completed" then job.(successfulDocuments := job.successfulDocuments + 1)
    else if result.status == "failed" then job.(failedDocuments := job.failedDocuments + 1)
    else job
  }

  /** The `JobResult` `complete_job` builds from the `i`-th result dictionary. */
  function SuccessResult(record: Meta, i: nat): JobResult {
    JobResult(Get(record, "document_id", VNone), VInt(i), "completed",
              Get(record, "chunks_created", VInt(0)), Get(record, "embedding_count", VInt(0)),
              VNone, Get(record, "processing_time_ms", VInt(0)))
  }

  /** The `JobResult` `complete_job` builds from an error dictionary; its index defaults to -1. */
  function FailureResult(record: Meta): JobResult {
    JobResult(Get(record, "document_id", VNone), Get(record, "document_index", VInt(-1)), "failed",
              VInt(0), VInt(0), Get(record, "error", VNone), VInt(0))
  }

  /** The results for the first `n` result dictionaries, numbered 0, 1, 2, ... */
  function SuccessResults(records: seq<Meta>, n: nat): (r: seq<JobResult>)
    requires n <= |records|
    ensures |r| == n
    ensures forall i :: 0 <= i < n ==> r[i] == SuccessResult(records[i], i)
  {
    seq(n, i requires 0 <= i < n => SuccessResult(records[i], i))
  }

  /** The results for the first `n` error dictionaries. */
  function FailureResults(records: seq<Meta>, n: nat): (r: seq<JobResult>)
    requires n <= |records|
    ensures |r| == n
    ensures forall i :: 0 <= i < n ==> r[i] == FailureResult(records[i])
  {
    seq(n, i requires 0 <= i < n => FailureResult(records[i]))
  }

  /**
   * The effect of `complete_job` on one job: one result per success
   * (successes first, numbered from 0) and one per error, counters raised by
   * as many, everything processed, and COMPLETED whatever the previous
   * status was, CANCELLED included.
   */
  function CompletedJob(job: BatchJob, results: seq<Meta>, errors: seq<Meta>, now: Time): (r: BatchJob)
    ensures r.results == job.results + SuccessResults(results, |results|) + FailureResults(errors, |errors|)
    ensures r.successfulDocuments == job.successfulDocuments + |results|
    ensures r.failedDocuments == job.failedDocuments + |errors|
    ensures r.status == Completed && r.completedAt == Some(now)
    ensures r.processedDocuments == |results| + |errors| && r.progressPercentage == 100.0
    ensures r.(results := job.results, successfulDocuments := job.successfulDocuments,
               failedDocuments := job.failedDocuments, status := job.status, completedAt := job.completedAt,
               processedDocuments := job.processedDocuments, progressPercentage := job.progressPercentage) == job
  {
    job.(results := job.results + SuccessResults(results, |results|) + FailureResults(errors, |errors|),
         successfulDocuments := job.successfulDocuments + |results|,
         failedDocuments := job.failedDocuments + |errors|,
         status := Completed,
         completedAt := Some(now),
         processedDocuments := |results| + |errors|,
         progressPercentage := 100.0)
  }

  /** The effect of `fail_job` on one job. */
  function FailedJob(job: BatchJob, message: string, now: Time): (r: BatchJob)
    ensures r.status == Failed && r.errorMessage == Some(message) && r.completedAt == Some(now)
    ensures r.(status := job.status, errorMessage := job.errorMessage, completedAt := job.completedAt) == job
  {
    job.(status := Failed, errorMessage := Some(message), completedAt := Some(now))
  }

  /** `datetime.utcnow() - timedelta(hours=max_age_hours)`, in microseconds. */
  function Cutoff(now: Time, maxAgeHours: int): Time {
    now - maxAgeHours * MicrosPerHour
  }

  /** The ids of the jobs `cleanup_old_jobs` removes at the given cutoff. */
  function ExpiredIds(jobs: map<string, BatchJob>, cutoff: Time): (r: set<string>)
    ensures forall id :: id in r <==> id in jobs && Expired(jobs[id], cutoff)
  {
    set id | id in jobs && Expired(jobs[id], cutoff)
  }

  /** A job `cleanup_old_jobs` removes: created before the cutoff and in a terminal status. */
  predicate Expired(job: BatchJob, cutoff: Time) {
    job.createdAt < cutoff && IsTerminal(job.status)
  }

  // ---------------------------------------------------------------------------
  // Listing: filter, stable sort newest first, truncate
  // ---------------------------------------------------------------------------

  /** `[job for job in jobs if job.status == status]`. */
  function WithStatus(jobs: seq<BatchJob>, status: JobStatus): (r: seq<BatchJob>)
    ensures forall i :: 0 <= i < |r| ==> r[i].status == status
    ensures forall job :: job in r ==> job in jobs
    ensures |r| <= |jobs| && multiset(r) <= multiset(jobs)
    ensures forall job :: job in jobs && job.status == status ==> job in r
    decreases |jobs|
  {
    if jobs == [] then []
    else
      var rest := WithStatus(jobs[1..], status);
      assert jobs == [jobs[0]] + jobs[1..];
      if jobs[0].status == status then [jobs[0]] + rest else rest
  }

  /** Jobs ordered by creation time, newest first: no job is newer than the one before it. */
  ghost predicate NewestFirst(jobs: seq<BatchJob>) {
    forall i :: 0 <= i && i + 1 < |jobs| ==> jobs[i].createdAt >= jobs[i + 1].createdAt
  }

  /** In a newest-first list every job is at least as new as every job after it. */
  lemma {:induction false} NewestFirstOrdersAll(jobs: seq<BatchJob>, i: int, j: int)
    requires NewestFirst(jobs) && 0 <= i <= j < |jobs|
    ensures jobs[i].createdAt >= jobs[j].createdAt
    decreases j - i
  {
    if i < j {
      NewestFirstOrdersAll(jobs, i + 1, j);
    }
  }

  /** Insert `job` before the first job that is not newer than it. */
  function InsertNewestFirst(job: BatchJob, jobs: seq<BatchJob>): (r: seq<BatchJob>)
    requires NewestFirst(jobs)
    ensures NewestFirst(r)
    ensures |r| == |jobs| + 1 && (r[0] == job || (jobs != [] && r[0] == jobs[0]))
    ensures multiset(r) == multiset(jobs) + multiset{job}
    decreases |jobs|
  {
    if jobs == [] || job.createdAt >= jobs[0].createdAt then [job] + jobs
    else
      assert jobs == [jobs[0]] + jobs[1..];
      [jobs[0]] + InsertNewestFirst(job, jobs[1..])
  }

  /**
   * `jobs.sort(key=lambda j: j.created_at, reverse=True)`: newest first, and
   * the same jobs. The contract says nothing about the order among jobs
   * created at the same instant.
   */
  function SortNewestFirst(jobs: seq<BatchJob>): (r: seq<BatchJob>)
    ensures NewestFirst(r)
    ensures multiset(r) == multiset(jobs)
    decreases |jobs|
  {
    if jobs == [] then []
    else
      assert jobs == [jobs[0]] + jobs[1..];
      InsertNewestFirst(jobs[0], SortNewestFirst(jobs[1..]))
  }

  /** `jobs[:limit]`, Python slicing: a negative limit drops that many from the end. */
  function TakePrefix(jobs: seq<BatchJob>, limit: int): (r: seq<BatchJob>)
    ensures |r| <= |jobs| && r == jobs[..|r|]
    ensures limit >= 0 ==> |r| == Min(limit, |jobs|)
    ensures limit < 0 ==> |r| == Max(0, |jobs| + limit)
  {
    jobs[..SliceBound(limit, |jobs|)]
  }

  // ---------------------------------------------------------------------------
  // The registry
  // ---------------------------------------------------------------------------

  /** No id appears twice. */
  ghost predicate Distinct(order: seq<string>) {
    forall i, j :: 0 <= i < j < |order| ==> order[i] != order[j]
  }

  /** The ids in `order`, minus those in `removed`, in order. */
  function Keep(order: seq<string>, removed: set<string>): (r: seq<string>)
    ensures forall id :: id in r <==> id in order && id !in removed
    ensures Distinct(order) ==> Distinct(r)
    decreases |order|
  {
    if order == [] then []
    else if order[0] in removed then Keep(order[1..], removed)
    else [order[0]] + Keep(order[1..], removed)
  }

  /** Filtering a list piece by piece gives the same ids in the same order. */
  lemma {:induction false} KeepConcat(a: seq<string>, b: seq<string>, removed: set<string>)
    ensures Keep(a + b, removed) == Keep(a, removed) + Keep(b, removed)
    decreases |a|
  {
    if a == [] {
      assert a + b == b;
    } else {
      var ab := a + b;
      assert ab[0] == a[0] && ab[1..] == a[1..] + b;
      KeepConcat(a[1..], b, removed);
    }
  }

  /** Each id on its own is kept exactly when it is not removed. */
  lemma KeepOne(id: string, removed: set<string>)
    ensures Keep([id], removed) == if id in removed then [] else [id]
  {
    assert [id][1..] == [];
  }

  /** `JobManager`: the job map, its insertion order, and the ids with a registered task. */
  class JobManager {
    var jobs: map<string, BatchJob>
    var order: seq<string>
    var runningTasks: set<string>

    /** `order` lists each registered id exactly once, and every job is stored under its own id. */
    ghost predicate Valid()
      reads this
    {
      && (forall id :: id in jobs <==> id in order)
      && Distinct(order)
      && (forall id :: id in jobs ==> jobs[id].id == id)
    }

    constructor()
      ensures Valid()
      ensures jobs == map[] && order == [] && runningTasks == {}
    {
      jobs := map[];
      order := [];
      runningTasks := {};
    }

    /** `list(self.jobs.values())`: the jobs in insertion order. */
    function Listed(): (r: seq<BatchJob>)
      reads this
      requires Valid()
      ensures |r| == |order|
      ensures forall i :: 0 <= i < |order| ==> r[i] == jobs[order[i]]
    {
      seq(|order|, i requires 0 <= i < |order| && order[i] in jobs reads this => jobs[order[i]])
    }

    /**
     * `create_batch_job`: registers a new QUEUED job for `documentCount`
     * documents under `jobId` (the fresh UUID) and returns that id. Only
     * that entry changes; an id already present keeps its place in the order.
     */
    method CreateBatchJob(documentCount: nat, collectionName: string, jobId: string, now: Time) returns (id: string)
      requires Valid()
      modifies this
      ensures Valid()
      ensures id == jobId
      ensures jobs == old(jobs)[jobId := NewJob(jobId, collectionName, now, documentCount)]
      ensures order == if jobId in old(jobs) then old(order) else old(order) + [jobId]
      ensures runningTasks == old(runningTasks)
    {
      var job := NewJob(jobId, collectionName, now, documentCount);
      if jobId !in jobs {
        order := order + [jobId];
      }
      jobs := jobs[jobId := job];
      id := jobId;
    }

    /** `get_job_status`: the job's record (`to_dict` renders it), or None for an unknown id. */
    function GetJobStatus(jobId: string): (r: Option<BatchJob>)
      reads this
      ensures r.Some? <==> jobId in jobs
      ensures r.Some? ==> r.value == jobs[jobId]
      ensures r.Some? ==> Valid() ==> r.value.id == jobId
      ensures r.Some? ==> Valid() ==> r.value in Listed()
    {
      if jobId in jobs then Some(jobs[jobId]) else None
    }

    /**
     * `get_all_jobs`: the jobs whose status is the filter (all jobs when the
     * filter is absent or empty), newest first, cut to `limit` with Python
     * slicing; an unknown status gives an empty list.
     */
    function GetAllJobs(limit: int, status: Option<string>): seq<BatchJob>
      reads this
      requires Valid()
    {
      var all := Listed();
      if status.Some? && status.value != [] then
        match ParseStatus(status.value)
        case None => []
        case Some(s) => TakePrefix(SortNewestFirst(WithStatus(all, s)), limit)
      else TakePrefix(SortNewestFirst(all), limit)
    }

    /** `cancel_job`. */
    method CancelJob(jobId: string, now: Time) returns (cancelled: bool)
      requires Valid()
      modifies this
      ensures Valid()
      ensures cancelled <==> jobId in old(jobs) && !IsTerminal(old(jobs)[jobId].status)
      ensures cancelled ==> jobs == old(jobs)[jobId := old(jobs)[jobId].(status := Cancelled, completedAt := Some(now))]
      ensures cancelled ==> runningTasks == old(runningTasks) - {jobId}
      ensures !cancelled ==> jobs == old(jobs) && runningTasks == old(runningTasks)
      ensures order == old(order)
    {
      if jobId !in jobs {
        return false;
      }
      var job := jobs[jobId];
      if IsTerminal(job.status) {
        return false;
      }
      if jobId in runningTasks {
        runningTasks := runningTasks - {jobId};
      }
      job := job.(status := Cancelled, completedAt := Some(now));
      jobs := jobs[jobId := job];
      return true;
    }

    /** `update_job_status`: an unknown id or an unrecognised status string changes nothing. */
    method UpdateJobStatus(jobId: string, status: string, now: Time)
      requires Valid()
      modifies this
      ensures Valid()
      ensures jobs == if jobId in old(jobs) && ParseStatus(status).Some?
                      then old(jobs)[jobId := StatusUpdated(old(jobs)[jobId], ParseStatus(status).value, now)]
                      else old(jobs)
      ensures order == old(order) && runningTasks == old(runningTasks)
    {
      if jobId !in jobs {
        return;
      }
      var job := jobs[jobId];
      match ParseStatus(status) {
        case None =>
        case Some(s) =>
          job := job.(status := s);
          if status == "processing" && job.startedAt == None {
            job := job.(startedAt := Some(now));
          } else if status == "completed" || status == "failed" || status == "cancelled" {
            job := job.(completedAt := Some(now));
          }
          jobs := jobs[jobId := job];
      }
    }

    /** `update_job_progress`. */
    method UpdateJobProgress(jobId: string, processed: int, total: int)
      requires Valid()
      modifies this
      ensures Valid()
      ensures jobs == if jobId in old(jobs) then old(jobs)[jobId := Progressed(old(jobs)[jobId], processed, total)] else old(jobs)
      ensures order == old(order) && runningTasks == old(runningTasks)
    {
      if jobId !in jobs {
        return;
      }
      var job := jobs[jobId];
      job := job.(processedDocuments := processed, totalDocuments := total);
      if total > 0 {
        job := job.(progressPercentage := (processed as real / total as real) * 100.0);
      }
      jobs := jobs[jobId := job];
    }

    /** `add_job_result`. */
    method AddJobResult(jobId: string, result: JobResult)
      requires Valid()
      modifies this
      ensures Valid()
      ensures jobs == if jobId in old(jobs) then old(jobs)[jobId := WithResult(old(jobs)[jobId], result)] else old(jobs)
      ensures order == old(order) && runningTasks == old(runningTasks)
    {
      if jobId !in jobs {
        return;
      }
      var job := jobs[jobId];
      job := job.(results := job.results + [result]);
      if result.status == "completed" {
        job := job.(successfulDocuments := job.successfulDocuments + 1);
      } else if result.status == "failed" {
        job := job.(failedDocuments := job.failedDocuments + 1);
      }
      jobs := jobs[jobId := job];
    }

    /** `complete_job`, over result and error dictionaries, with its two loops. */
    method CompleteJob(jobId: string, results: seq<Meta>, errors: seq<Meta>, now: Time)
      requires Valid()
      modifies this
      ensures Valid()
      ensures jobs == if jobId in old(jobs) then old(jobs)[jobId := CompletedJob(old(jobs)[jobId], results, errors, now)] else old(jobs)
      ensures runningTasks == if jobId in old(jobs) then old(runningTasks) - {jobId} else old(runningTasks)
      ensures order == old(order)
    {
      if jobId !in jobs {
        return;
      }
      var job := jobs[jobId];
      ghost var job0 := job;
      var i := 0;
      while i < |results|
        invariant 0 <= i <= |results|
        invariant job == job0.(results := job0.results + SuccessResults(results, i),
                               successfulDocuments := job0.successfulDocuments + i)
      {
        var jobResult := JobResult(Get(results[i], "document_id", VNone), VInt(i), "completed",
                                   Get(results[i], "chunks_created", VInt(0)), Get(results[i], "embedding_count", VInt(0)),
                                   VNone, Get(results[i], "processing_time_ms", VInt(0)));
        assert SuccessResults(results, i + 1) == SuccessResults(results, i) + [jobResult];
        job := job.(results := job.results + [jobResult], successfulDocuments := job.successfulDocuments + 1);
        i := i + 1;
      }
      ghost var job1 := job;
      var k := 0;
      while k < |errors|
        invariant 0 <= k <= |errors|
        invariant job == job1.(results := job1.results + FailureResults(errors, k),
                               failedDocuments := job1.failedDocuments + k)
      {
        var jobResult := JobResult(Get(errors[k], "document_id", VNone), Get(errors[k], "document_index", VInt(-1)),
                                   "failed", VInt(0), VInt(0), Get(errors[k], "error", VNone), VInt(0));
        assert FailureResults(errors, k + 1) == FailureResults(errors, k) + [jobResult];
        job := job.(results := job.results + [jobResult], failedDocuments := job.failedDocuments + 1);
        k := k + 1;
      }
      job := job.(status := Completed, completedAt := Some(now),
                  processedDocuments := |results| + |errors|, progressPercentage := 100.0);
      jobs := jobs[jobId := job];
      if jobId in runningTasks {
        runningTasks := runningTasks - {jobId};
      }
    }

    /** `fail_job`. */
    method FailJob(jobId: string, message: string, now: Time)
      requires Valid()
      modifies this
      ensures Valid()
      ensures jobs == if jobId in old(jobs) then old(jobs)[jobId := FailedJob(old(jobs)[jobId], message, now)] else old(jobs)
      ensures runningTasks == if jobId in old(jobs) then old(runningTasks) - {jobId} else old(runningTasks)
      ensures order == old(order)
    {
      if jobId !in jobs {
        return;
      }
      var job := jobs[jobId];
      job := job.(status := Failed, errorMessage := Some(message), completedAt := Some(now));
      jobs := jobs[jobId := job];
      if jobId in runningTasks {
        runningTasks := runningTasks - {jobId};
      }
    }

    /**
     * `cleanup_old_jobs`: the first loop collects, in insertion order, the
     * ids of the terminal jobs created before `now - max_age_hours`; the
     * second deletes them. Exactly those jobs go, and every other job stays.
     */
    method CleanupOldJobs(now: Time, maxAgeHours: int := 24)
      requires Valid()
      modifies this
      ensures Valid()
      ensures jobs == old(jobs) - ExpiredIds(old(jobs), Cutoff(now, maxAgeHours))
      ensures order == Keep(old(order), ExpiredIds(old(jobs), Cutoff(now, maxAgeHours)))
      ensures runningTasks == old(runningTasks)
    {
      var cutoff := Cutoff(now, maxAgeHours);
      ghost var expired := ExpiredIds(jobs, cutoff);
      var toRemove := CollectExpired(cutoff);
      ghost var listed := set id | id in toRemove;
      assert listed == expired;
      RemoveJobs(toRemove);
    }

    /** The first loop of `cleanup_old_jobs`: the expired ids, in insertion order. */
    method CollectExpired(cutoff: Time) returns (toRemove: seq<string>)
      requires Valid()
      ensures forall id :: id in toRemove <==> id in ExpiredIds(jobs, cutoff)
    {
      toRemove := [];
      var i := 0;
      while i < |order|
        invariant 0 <= i <= |order|
        invariant forall id :: id in toRemove <==> id in order[..i] && Expired(jobs[id], cutoff)
      {
        var id := order[i];
        if Expired(jobs[id], cutoff) {
          toRemove := toRemove + [id];
        }
        assert order[..i + 1] == order[..i] + [id];
        i := i + 1;
      }
      assert order[..|order|] == order;
    }

    /** The second loop of `cleanup_old_jobs`: `del self.jobs[job_id]` for each id. */
    method RemoveJobs(toRemove: seq<string>)
      requires Valid()
      modifies this
      ensures Valid()
      ensures jobs == old(jobs) - (set id | id in toRemove)
      ensures order == Keep(old(order), set id | id in toRemove)
      ensures runningTasks == old(runningTasks)
    {
      ghost var removed: set<string> := {};
      KeepNothing(order);
      var k := 0;
      while k < |toRemove|
        invariant 0 <= k <= |toRemove|
        invariant removed == IdSet(toRemove[..k])
        invariant jobs == old(jobs) - removed
        invariant order == Keep(old(order), removed)
        invariant runningTasks == old(runningTasks)
      {
        var id := toRemove[k];
        MinusMore(old(jobs), removed, id);
        jobs := jobs - {id};
        KeepMore(old(order), removed, id);
        IdSetAppend(toRemove, k);
        removed := removed + {id};
        order := Without(order, id);
        k := k + 1;
      }
      assert toRemove[..|toRemove|] == toRemove;
      RemovalKeepsRegistry(old(jobs), old(order), removed);
    }

    /**
     * `get_job_count`: one entry per status value, each counting the jobs in
     * that status; the counting loop changes nothing.
     */
    method GetJobCount() returns (counts: map<string, int>)
      requires Valid()
      ensures counts.Keys == {"queued", "processing", "completed", "failed", "cancelled"}
      ensures forall s :: counts[StatusValue(s)] == CountStatus(Listed(), s)
    {
      counts := map["queued" := 0, "processing" := 0, "completed" := 0, "failed" := 0, "cancelled" := 0];
      var all := Listed();
      var i := 0;
      assert all[..0] == [];
      while i < |order|
        invariant 0 <= i <= |order|
        invariant CountsOf(counts, all[..i])
      {
        var job := jobs[order[i]];
        assert all[..i + 1] == all[..i] + [job];
        CountsOfAppend(counts, all[..i], job);
        counts := counts[StatusValue(job.status) := counts[StatusValue(job.status)] + 1];
        i := i + 1;
      }
      assert all[..|order|] == all;
    }
  }

  /** `order` with every occurrence of `id` dropped, which is what `del self.jobs[id]` does to the key order. */
  function Without(order: seq<string>, id: string): (r: seq<string>)
    ensures forall x :: x in r <==> x in order && x != id
    decreases |order|
  {
    if order == [] then []
    else if order[0] == id then Without(order[1..], id)
    else [order[0]] + Without(order[1..], id)
  }

  /** Deleting one more key is deleting it along with the keys deleted before. */
  lemma MinusMore(m: map<string, BatchJob>, removed: set<string>, id: string)
    ensures (m - removed) - {id} == m - (removed + {id})
  {
  }

  /** The ids listed in `ids`. */
  ghost function IdSet(ids: seq<string>): set<string> {
    set id | id in ids
  }

  lemma IdSetAppend(ids: seq<string>, k: nat)
    requires k < |ids|
    ensures IdSet(ids[..k + 1]) == IdSet(ids[..k]) + {ids[k]}
  {
    assert ids[..k + 1] == ids[..k] + [ids[k]];
  }

  /** Removing the same ids from the job map and from its key order keeps the registry consistent. */
  lemma RemovalKeepsRegistry(jobs: map<string, BatchJob>, order: seq<string>, removed: set<string>)
    requires forall id :: id in jobs <==> id in order
    requires Distinct(order)
    requires forall id :: id in jobs ==> jobs[id].id == id
    ensures forall id :: id in jobs - removed <==> id in Keep(order, removed)
    ensures Distinct(Keep(order, removed))
    ensures forall id :: id in jobs - removed ==> (jobs - removed)[id].id == id
  {
  }

  lemma {:induction false} KeepNothing(order: seq<string>)
    ensures Keep(order, {}) == order
    decreases |order|
  {
    if order != [] {
      KeepNothing(order[1..]);
    }
  }

  /** Dropping one more id from a kept order is keeping with that id added to the removed set. */
  lemma {:induction false} KeepMore(order: seq<string>, removed: set<string>, id: string)
    ensures Without(Keep(order, removed), id) == Keep(order, removed + {id})
    decreases |order|
  {
    if order != [] {
      KeepMore(order[1..], removed, id);
      if order[0] !in removed {
        assert ([order[0]] + Keep(order[1..], removed))[1..] == Keep(order[1..], removed);
      }
    }
  }

  /** The number of jobs in `jobs` with the given status. */
  function CountStatus(jobs: seq<BatchJob>, s: JobStatus): (n: nat)
    ensures n <= |jobs|
    decreases |jobs|
  {
    if jobs == [] then 0
    else CountStatus(jobs[..|jobs| - 1], s) + (if jobs[|jobs| - 1].status == s then 1 else 0)
  }

  lemma CountStatusAppend(jobs: seq<BatchJob>, job: BatchJob)
    ensures forall s :: CountStatus(jobs + [job], s) == CountStatus(jobs, s) + (if job.status == s then 1 else 0)
  {
    assert (jobs + [job])[..|jobs|] == jobs;
  }

  /** `counts` holds, under each status value, the number of `jobs` in that status. */
  ghost predicate CountsOf(counts: map<string, int>, jobs: seq<BatchJob>) {
    && counts.Keys == {"queued", "processing", "completed", "failed", "cancelled"}
    && forall s :: counts[StatusValue(s)] == CountStatus(jobs, s)
  }

  /** Counting one more job raises its own status's entry by one. */
  lemma CountsOfAppend(counts: map<string, int>, jobs: seq<BatchJob>, job: BatchJob)
    requires CountsOf(counts, jobs)
    ensures CountsOf(counts[StatusValue(job.status) := counts[StatusValue(job.status)] + 1], jobs + [job])
  {
    CountStatusAppend(jobs, job);
    var c := counts[StatusValue(job.status) := counts[StatusValue(job.status)] + 1];
    forall s
      ensures c[StatusValue(s)] == CountStatus(jobs + [job], s)
    {
      ParseStatusRoundTrip(s, StatusValue(job.status));
    }
  }

  /** The five counts of `get_job_count` add up to the number of jobs. */
  lemma {:induction false} CountsSumToTotal(jobs: seq<BatchJob>)
    ensures CountStatus(jobs, Queued) + CountStatus(jobs, Processing) + CountStatus(jobs, Completed)
          + CountStatus(jobs, Failed) + CountStatus(jobs, Cancelled) == |jobs|
    decreases |jobs|
  {
    if jobs != [] {
      CountsSumToTotal(jobs[..|jobs| - 1]);
    }
  }

  /** The job passes `get_all_jobs`'s status filter; an absent or empty filter passes every job. */
  predicate MatchesFilter(job: BatchJob, status: Option<string>) {
    status.None? || status.value == [] || StatusValue(job.status) == status.value
  }

  /** The pool `get_all_jobs` sorts: the jobs with the filtered status, or all jobs. */
  lemma GetAllJobsPool(m: JobManager, limit: int, status: Option<string>) returns (pool: seq<BatchJob>)
    requires m.Valid()
    requires !(status.Some? && status.value != [] && ParseStatus(status.value).None?)
    ensures m.GetAllJobs(limit, status) == TakePrefix(SortNewestFirst(pool), limit)
    ensures |pool| <= |m.order|
    ensures forall job :: job in pool ==> job.id in m.jobs && m.jobs[job.id] == job
    ensures status.Some? && status.value != [] ==> forall job :: job in pool ==> StatusValue(job.status) == status.value
    ensures forall id :: id in m.jobs && MatchesFilter(m.jobs[id], status) ==> m.jobs[id] in pool
  {
    var all := m.Listed();
    ListedIsRegistry(m);
    if status.Some? && status.value != [] {
      var s := ParseStatus(status.value).value;
      pool := WithStatus(all, s);
      assert StatusValue(s) == status.value;
      forall id | id in m.jobs && MatchesFilter(m.jobs[id], status)
        ensures m.jobs[id] in pool
      {
        ParseStatusRoundTrip(m.jobs[id].status, status.value);
      }
    } else {
      pool := all;
    }
  }

  /**
   * What `get_all_jobs` returns: an unknown status filter gives nothing;
   * otherwise every job listed is registered and has the filtered status,
   * the list is newest first, and it is never longer than a non-negative limit.
   */
  lemma GetAllJobsSpec(m: JobManager, limit: int, status: Option<string>)
    requires m.Valid()
    ensures var r := m.GetAllJobs(limit, status);
      && (status.Some? && status.value != [] && ParseStatus(status.value).None? ==> r == [])
      && (forall i, j :: 0 <= i < j < |r| ==> r[i].createdAt >= r[j].createdAt)
      && (forall job :: job in r ==> job.id in m.jobs && m.jobs[job.id] == job)
      && (status.Some? && status.value != [] ==> forall job :: job in r ==> StatusValue(job.status) == status.value)
      && (limit >= 0 ==> |r| <= limit)
  {
    var r := m.GetAllJobs(limit, status);
    if !(status.Some? && status.value != [] && ParseStatus(status.value).None?) {
      var pool := GetAllJobsPool(m, limit, status);
      ListingOf(pool, limit);
    }
    forall i, j | 0 <= i < j < |r|
      ensures r[i].createdAt >= r[j].createdAt
    {
      NewestFirstOrdersAll(r, i, j);
    }
  }

  /** Under a limit no smaller than the number of jobs, `get_all_jobs` lists every job with the filtered status. */
  lemma GetAllJobsComplete(m: JobManager, limit: int, status: Option<string>)
    requires m.Valid()
    requires limit >= |m.order|
    ensures var r := m.GetAllJobs(limit, status);
      forall id :: id in m.jobs && MatchesFilter(m.jobs[id], status) ==> m.jobs[id] in r
  {
    if status.Some? && status.value != [] && ParseStatus(status.value).None? {
      assert forall id :: id in m.jobs ==> StatusValue(m.jobs[id].status) != status.value by {
        forall id | id in m.jobs
          ensures StatusValue(m.jobs[id].status) != status.value
        {
          ParseStatusRoundTrip(m.jobs[id].status, status.value);
        }
      }
    } else {
      var pool := GetAllJobsPool(m, limit, status);
      ListingOf(pool, limit);
    }
  }

  /** Sorting newest first and cutting to `limit` keeps order, bounds the length and loses nothing under a large limit. */
  lemma ListingOf(pool: seq<BatchJob>, limit: int)
    ensures var r := TakePrefix(SortNewestFirst(pool), limit);
      && NewestFirst(r)
      && (forall job :: job in r ==> job in pool)
      && (limit >= 0 ==> |r| <= limit)
      && (limit >= |pool| ==> forall job :: job in pool ==> job in r)
  {
    var sorted := SortNewestFirst(pool);
    SortKeepsElements(pool);
    var r := TakePrefix(sorted, limit);
    PrefixElements(sorted, |r|);
    NewestFirstPrefix(sorted, |r|);
    if limit >= |pool| {
      assert r == sorted;
    }
  }

  /** Every listed job is registered under its id, and every registered job is listed. */
  lemma ListedIsRegistry(m: JobManager)
    requires m.Valid()
    ensures forall job :: job in m.Listed() ==> job.id in m.jobs && m.jobs[job.id] == job
    ensures forall id :: id in m.jobs ==> m.jobs[id] in m.Listed()
  {
    var all := m.Listed();
    forall id | id in m.jobs
      ensures m.jobs[id] in all
    {
      var i :| 0 <= i < |m.order| && m.order[i] == id;
      assert all[i] == m.jobs[id];
    }
  }

  lemma SortKeepsElements(jobs: seq<BatchJob>)
    ensures |SortNewestFirst(jobs)| == |jobs|
    ensures forall job :: job in SortNewestFirst(jobs) <==> job in jobs
  {
    var r := SortNewestFirst(jobs);
    assert |r| == |multiset(r)|;
    forall job
      ensures job in r <==> job in jobs
    {
      assert job in r <==> job in multiset(r);
      assert job in jobs <==> job in multiset(jobs);
    }
  }

  lemma PrefixElements(jobs: seq<BatchJob>, n: nat)
    requires n <= |jobs|
    ensures forall job :: job in jobs[..n] ==> job in jobs
  {
  }

  lemma NewestFirstPrefix(jobs: seq<BatchJob>, n: nat)
    requires NewestFirst(jobs) && n <= |jobs|
    ensures NewestFirst(jobs[..n])
  {
  }
}
