/**
 * The completion store shared by all worker-job repositories (analyzer, advisor, scanner,
 * evaluator, reporter jobs): `complete` overwrites a job's finish time and status,
 * `tryComplete` does so only for a job that is not completed yet, so that duplicate
 * completion messages of an at-least-once transport take effect once.
 *
 * The job kinds differ only in their configuration, so the store is generic over it.
 * Instants are integers counting nanoseconds since the epoch.
 */
module WorkerJobs {
  import opened Common

  datatype JobStatus = Created | Scheduled | Running | Finished | Failed | FinishedWithIssues
  {
    /** The statuses after which a job is done. */
    predicate IsFinal() {
      Finished? || Failed? || FinishedWithIssues?
    }
  }

  /** Nanoseconds in one microsecond, the resolution of a stored timestamp. */
  const DatabasePrecision: int := 1000

  /** `Instant.toDatabasePrecision()`: the instant truncated to what the database stores. */
  function ToDatabasePrecision(instant: int): (r: int)
    ensures r % DatabasePrecision == 0
    ensures r <= instant < r + DatabasePrecision
  {
    instant - instant % DatabasePrecision
  }

  /** Rounding to the storage precision is idempotent: a stored instant is stored unchanged. */
  lemma PrecisionIsIdempotent(instant: int)
    ensures ToDatabasePrecision(ToDatabasePrecision(instant)) == ToDatabasePrecision(instant)
  {
  }

  /** One worker job of a run; `configuration` is the job-kind specific part. */
  datatype Job<C> = Job(
    id: int,
    ortRunId: int,
    createdAt: int,
    startedAt: Option<int>,
    finishedAt: Option<int>,
    configuration: C,
    status: JobStatus)
  {
    /** A job is completed once its status is final. */
    predicate IsCompleted() {
      status.IsFinal()
    }
  }

  /** The job rows of one repository, by id. */
  type JobTable<C> = map<int, Job<C>>

  /** The job as `complete` stores it: the given status and the finish time at storage precision, nothing else changed. */
  function Completed<C>(job: Job<C>, finishedAt: int, status: JobStatus): (r: Job<C>)
    ensures r.status == status
    ensures r.finishedAt == Some(ToDatabasePrecision(finishedAt))
    ensures r.id == job.id && r.ortRunId == job.ortRunId && r.createdAt == job.createdAt
    ensures r.startedAt == job.startedAt && r.configuration == job.configuration
  {
    job.(finishedAt := Some(ToDatabasePrecision(finishedAt)), status := status)
  }

  /** `complete(id, finishedAt, status)` on a table: the returned job and the new table. */
  function CompleteStep<C>(jobs: JobTable<C>, id: int, finishedAt: int, status: JobStatus)
    : (r: (Result<Job<C>>, JobTable<C>))
    ensures id !in jobs ==> r.0 == Failure(EntityNotFound(id)) && r.1 == jobs
    ensures id in jobs ==> r.0.Success? && id in r.1 && r.0.value == r.1[id]
    ensures id in jobs ==> r.1[id].status == status && r.1[id].finishedAt == Some(ToDatabasePrecision(finishedAt))
    ensures id in jobs ==> r.1[id] == Completed(jobs[id], finishedAt, status)
    ensures r.1.Keys == jobs.Keys
    ensures forall k :: k in jobs && k != id ==> r.1[k] == jobs[k]
  {
    if id !in jobs then
      (Failure(EntityNotFound(id)), jobs)
    else
      var job := Completed(jobs[id], finishedAt, status);
      (Success(job), jobs[id := job])
  }

  /** `tryComplete(id, finishedAt, status)` on a table: the returned job (None for null) and the new table. */
  function TryCompleteStep<C>(jobs: JobTable<C>, id: int, finishedAt: int, status: JobStatus)
    : (r: (Result<Option<Job<C>>>, JobTable<C>))
    ensures id !in jobs ==> r.0 == Failure(IllegalArgument(id)) && r.1 == jobs
    ensures id in jobs && jobs[id].IsCompleted() ==> r.0 == Success(None) && r.1 == jobs
    ensures id in jobs && !jobs[id].IsCompleted() ==>
              r.0.Success? && r.0.value.Some? && r.1 == CompleteStep(jobs, id, finishedAt, status).1
              && id in r.1 && r.0.value.value == r.1[id]
  {
    if id !in jobs then
      (Failure(IllegalArgument(id)), jobs)
    else if jobs[id].IsCompleted() then
      (Success(None), jobs)
    else
      var (completed, jobs') := CompleteStep(jobs, id, finishedAt, status);
      (Success(Some(completed.value)), jobs')
  }

  /** A `tryComplete` that took effect (it returned a job rather than null or an exception). */
  predicate Took<C>(r: Result<Option<Job<C>>>) {
    r.Success? && r.value.Some?
  }

  /** Once `complete` has given a job a final status, `tryComplete` returns null and the first completion stays. */
  lemma FirstCompletionWins<C>(jobs: JobTable<C>, id: int, t1: int, s1: JobStatus, t2: int, s2: JobStatus)
    requires id in jobs && s1.IsFinal()
    ensures var afterComplete := CompleteStep(jobs, id, t1, s1).1;
            var (r, afterTry) := TryCompleteStep(afterComplete, id, t2, s2);
            r == Success(None) && afterTry == afterComplete
            && afterTry[id].status == s1 && afterTry[id].finishedAt == Some(ToDatabasePrecision(t1))
  {
  }

  /** A second `tryComplete` after one with a final status that took effect is a no-op returning null. */
  lemma TryCompleteIsIdempotent<C>(jobs: JobTable<C>, id: int, t1: int, s1: JobStatus, t2: int, s2: JobStatus)
    requires s1.IsFinal()
    requires Took(TryCompleteStep(jobs, id, t1, s1).0)
    ensures var once := TryCompleteStep(jobs, id, t1, s1).1;
            TryCompleteStep(once, id, t2, s2) == (Success(None), once)
  {
  }

  /** One completion message as delivered by the transport. */
  datatype Completion = Completion(jobId: int, finishedAt: int, status: JobStatus)

  /** Handle each message of `msgs` with `tryComplete`, in order: the per-message results and the final table. */
  function DeliverAll<C>(jobs: JobTable<C>, msgs: seq<Completion>): (r: (seq<Result<Option<Job<C>>>>, JobTable<C>))
    ensures |r.0| == |msgs|
    ensures r.1.Keys == jobs.Keys
    decreases |msgs|
  {
    if msgs == [] then
      ([], jobs)
    else
      var (first, jobs') := TryCompleteStep(jobs, msgs[0].jobId, msgs[0].finishedAt, msgs[0].status);
      var (rest, jobs'') := DeliverAll(jobs', msgs[1..]);
      ([first] + rest, jobs'')
  }

  /** A message for an unknown job always fails with IllegalArgument, however many messages came before it. */
  lemma {:induction false} UnknownJobsAreReported<C>(jobs: JobTable<C>, msgs: seq<Completion>, i: int)
    requires 0 <= i < |msgs| && msgs[i].jobId !in jobs
    ensures DeliverAll(jobs, msgs).0[i] == Failure(IllegalArgument(msgs[i].jobId))
    decreases |msgs|
  {
    var (first, jobs') := TryCompleteStep(jobs, msgs[0].jobId, msgs[0].finishedAt, msgs[0].status);
    if i > 0 {
      UnknownJobsAreReported(jobs', msgs[1..], i - 1);
    }
  }

  /**
   * A completed job is frozen: whatever messages arrive afterwards, for it or for other
   * jobs, its row stays as it is and every message addressed to it yields null.
   */
  lemma {:induction false} CompletedJobIsFrozen<C>(jobs: JobTable<C>, msgs: seq<Completion>, id: int)
    requires id in jobs && jobs[id].IsCompleted()
    ensures id in DeliverAll(jobs, msgs).1 && DeliverAll(jobs, msgs).1[id] == jobs[id]
    ensures forall i :: 0 <= i < |msgs| && msgs[i].jobId == id ==> DeliverAll(jobs, msgs).0[i] == Success(None)
    decreases |msgs|
  {
    if msgs != [] {
      var (first, jobs') := TryCompleteStep(jobs, msgs[0].jobId, msgs[0].finishedAt, msgs[0].status);
      assert jobs'[id] == jobs[id];
      CompletedJobIsFrozen(jobs', msgs[1..], id);
      var (rest, _) := DeliverAll(jobs', msgs[1..]);
      forall i | 0 <= i < |msgs| && msgs[i].jobId == id
        ensures DeliverAll(jobs, msgs).0[i] == Success(None)
      {
        if i > 0 {
          assert msgs[1..][i - 1] == msgs[i];
        }
      }
    }
  }

  /**
   * Exactly-once completion under duplicate delivery: when every message carries a final
   * status, at most one message per job takes effect; every later one for that job yields null.
   */
  lemma {:induction false} AtMostOneCompletionPerJob<C>(jobs: JobTable<C>, msgs: seq<Completion>)
    requires forall i :: 0 <= i < |msgs| ==> msgs[i].status.IsFinal()
    ensures forall i, j :: 0 <= i < j < |msgs| && msgs[i].jobId == msgs[j].jobId && Took(DeliverAll(jobs, msgs).0[i])
              ==> DeliverAll(jobs, msgs).0[j] == Success(None)
    decreases |msgs|
  {
    if msgs != [] {
      var (first, jobs') := TryCompleteStep(jobs, msgs[0].jobId, msgs[0].finishedAt, msgs[0].status);
      var tail := msgs[1..];
      AtMostOneCompletionPerJob(jobs', tail);
      if Took(first) {
        CompletedJobIsFrozen(jobs', tail, msgs[0].jobId);
      }
      forall i, j | 0 <= i < j < |msgs| && msgs[i].jobId == msgs[j].jobId && Took(DeliverAll(jobs, msgs).0[i])
        ensures DeliverAll(jobs, msgs).0[j] == Success(None)
      {
        assert tail[j - 1] == msgs[j];
        if i > 0 {
          assert tail[i - 1] == msgs[i];
        }
      }
    }
  }

  /**
   * Duplicate messages for one job that is not completed yet: the first message completes it
   * with its own status and finish time, every duplicate yields null, and no other job changes.
   */
  lemma {:induction false} DuplicateDeliveriesTakeEffectOnce<C>(jobs: JobTable<C>, id: int, msgs: seq<Completion>)
    requires id in jobs && !jobs[id].IsCompleted()
    requires |msgs| > 0 && msgs[0].status.IsFinal()
    requires forall i :: 0 <= i < |msgs| ==> msgs[i].jobId == id
    ensures DeliverAll(jobs, msgs).0[0] == Success(Some(Completed(jobs[id], msgs[0].finishedAt, msgs[0].status)))
    ensures forall i :: 0 < i < |msgs| ==> DeliverAll(jobs, msgs).0[i] == Success(None)
    ensures DeliverAll(jobs, msgs).1 == jobs[id := Completed(jobs[id], msgs[0].finishedAt, msgs[0].status)]
  {
    var (first, jobs') := TryCompleteStep(jobs, id, msgs[0].finishedAt, msgs[0].status);
    var tail := msgs[1..];
    CompletedJobIsFrozen(jobs', tail, id);
    DuplicatesLeaveTableAlone(jobs', id, tail);
    forall i | 0 < i < |msgs| ensures DeliverAll(jobs, msgs).0[i] == Success(None) {
      assert tail[i - 1] == msgs[i];
    }
  }

  /** Messages that all address one completed job leave the whole table as it is. */
  lemma {:induction false} DuplicatesLeaveTableAlone<C>(jobs: JobTable<C>, id: int, msgs: seq<Completion>)
    requires id in jobs && jobs[id].IsCompleted()
    requires forall i :: 0 <= i < |msgs| ==> msgs[i].jobId == id
    ensures DeliverAll(jobs, msgs).1 == jobs
    decreases |msgs|
  {
    if msgs != [] {
      DuplicatesLeaveTableAlone(jobs, id, msgs[1..]);
    }
  }

  /** The store of one job kind: a table of job rows, updated in place by `complete` and `tryComplete`. */
  class WorkerJobRepository<C> {
    var jobs: JobTable<C>
    var nextId: int

    /** Every row is stored under its own id, and ids still to be handed out are fresh. */
    ghost predicate Valid()
      reads this
    {
      forall id :: id in jobs ==> jobs[id].id == id && id < nextId
    }

    constructor ()
      ensures Valid() && jobs == map[]
    {
      jobs := map[];
      nextId := 1;
    }

    /** `create`: a new job of run `ortRunId`, CREATED, with no start or finish time. */
    method Create(ortRunId: int, createdAt: int, configuration: C) returns (job: Job<C>)
      requires Valid()
      modifies this
      ensures Valid()
      ensures job.id !in old(jobs)
      ensures job == Job(job.id, ortRunId, createdAt, None, None, configuration, Created)
      ensures jobs == old(jobs)[job.id := job]
    {
      job := Job(nextId, ortRunId, createdAt, None, None, configuration, Created);
      jobs := jobs[nextId := job];
      nextId := nextId + 1;
    }

    /** `get`: the job with this id, or null. */
    function Get(id: int): (r: Option<Job<C>>)
      reads this
      ensures r.Some? <==> id in jobs
      ensures r.Some? ==> r.value == jobs[id]
    {
      if id in jobs then Some(jobs[id]) else None
    }

    /** `complete`: unconditionally overwrite the job's finish time and status. */
    method Complete(id: int, finishedAt: int, status: JobStatus) returns (r: Result<Job<C>>)
      requires Valid()
      modifies this
      ensures Valid() && nextId == old(nextId)
      ensures (r, jobs) == CompleteStep(old(jobs), id, finishedAt, status)
      ensures r.Success? ==> Get(id) == Some(r.value)
    {
      if id !in jobs {
        return Failure(EntityNotFound(id));
      }
      var job := Completed(jobs[id], finishedAt, status);
      jobs := jobs[id := job];
      r := Success(job);
    }

    /** `tryComplete`: complete the job only if it is not completed yet; null if it is; IllegalArgument for an unknown id. */
    method TryComplete(id: int, finishedAt: int, status: JobStatus) returns (r: Result<Option<Job<C>>>)
      requires Valid()
      modifies this
      ensures Valid() && nextId == old(nextId)
      ensures (r, jobs) == TryCompleteStep(old(jobs), id, finishedAt, status)
      ensures Took(r) ==> Get(id) == r.value
    {
      if id !in jobs {
        return Failure(IllegalArgument(id));
      }
      if jobs[id].IsCompleted() {
        return Success(None);
      }
      var completed := Complete(id, finishedAt, status);
      r := Success(Some(completed.value));
    }
  }
}
