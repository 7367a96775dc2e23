/** One pass of `WorkerService.handle_event` over one job, cut at its transaction boundaries. */
module Attempts {
  import opened Prelude
  import opened Domain
  import opened JobRows

  /** Where an attempt stands between two transactions. */
  datatype Attempt =
    | Idle                                                       // nothing read or written yet
    | NotGranted                                                 // the claim matched no row and was rolled back
    | Leased(owner: WorkerId, epoch: nat)                        // claim committed, processor running
    | Computed(owner: WorkerId, epoch: nat, result: Document)    // about to write SUCCESS
    | Failing(owner: WorkerId, epoch: nat, error: string)        // in the except branch, about to write FAILED
    | Returned(ok: bool, reason: Option<string>)
    | Raised

  /** A commit may succeed, be lost, or take effect although the client sees an exception. */
  datatype CommitFault = CommitOk | CommitLost(error: string) | AppliedButRaised(error: string)

  datatype Move =
    | Claim(owner: WorkerId, now: int, leaseSeconds: int, fault: CommitFault)
    | ReadStatus
    | ProcessorReturns(result: Document)
    | TryRaises(error: string)
    | WriteSuccess(fault: CommitFault)
    | WriteFailed(fault: CommitFault)
    | Abort

  const LEASE_HELD := "LEASE_HELD"

  predicate Holds(attempt: Attempt) {
    attempt.Leased? || attempt.Computed? || attempt.Failing?
  }

  /** The attempt owns an epoch and has not yet tried to write under it. */
  predicate Unwritten(attempt: Attempt) {
    attempt.Leased? || attempt.Computed?
  }

  function SuccessUpdate(owner: WorkerId, epoch: nat, result: Document): StatusUpdate {
    StatusUpdate(SUCCESS, Some(result), None, true, None, Some(owner), Some(epoch), true)
  }

  function FailedUpdate(owner: WorkerId, epoch: nat, error: string): StatusUpdate {
    StatusUpdate(FAILED, None, Some(error), false, None, Some(owner), Some(epoch), true)
  }

  predicate CanMove(attempt: Attempt, move: Move) {
    match move
    case Claim(_, _, _, _) => attempt.Idle?
    case ReadStatus => attempt.NotGranted?
    case ProcessorReturns(_) => attempt.Leased?
    case TryRaises(_) => attempt.Leased? || attempt.Computed?
    case WriteSuccess(_) => attempt.Computed?
    case WriteFailed(_) => attempt.Failing?
    case Abort => !attempt.Returned? && !attempt.Raised?
  }

  /** What the move leaves in the database: one atomic commit of the row and its event, or nothing. */
  function JobAfter(job: JobState, attempt: Attempt, move: Move): JobState
    requires CanMove(attempt, move)
  {
    match move
    case Claim(owner, now, leaseSeconds, fault) =>
      if Claimable(job.row, now) && !fault.CommitLost? then
        JobState(Claimed(job.row, owner, now, leaseSeconds),
                 job.events + [ProcessingStarted(job.row.leaseEpoch + 1)])
      else job
    case WriteSuccess(fault) =>
      var update := SuccessUpdate(attempt.owner, attempt.epoch, attempt.result);
      if Admits(update, job.row) && !fault.CommitLost? then
        JobState(Updated(update, job.row), job.events + [ProcessingCompleted(attempt.result)])
      else job
    case WriteFailed(fault) =>
      var update := FailedUpdate(attempt.owner, attempt.epoch, attempt.error);
      if Admits(update, job.row) && !fault.CommitLost? then
        JobState(Updated(update, job.row), job.events + [ProcessingFailed(attempt.error)])
      else job
    case _ => job
  }

  /** What the worker does next; `None` stands for a job whose row does not exist. */
  function AttemptAfter(job: Option<JobState>, attempt: Attempt, move: Move): Attempt
    requires CanMove(attempt, move)
  {
    match move
    case Claim(owner, now, _, fault) =>
      if job.None? || !Claimable(job.value.row, now) then NotGranted
      else if fault.CommitOk? then Leased(owner, job.value.row.leaseEpoch + 1)
      else Raised
    case ReadStatus =>
      if job.Some? && job.value.row.status == SUCCESS then Returned(true, None)
      else Returned(false, Some(LEASE_HELD))
    case ProcessorReturns(result) => Computed(attempt.owner, attempt.epoch, result)
    case TryRaises(error) => Failing(attempt.owner, attempt.epoch, error)
    case WriteSuccess(fault) =>
      if job.None? || !Admits(SuccessUpdate(attempt.owner, attempt.epoch, attempt.result), job.value.row) then
        Returned(true, None)  // fenced out: the takeover's result stands
      else (
        match fault
        case CommitOk => Returned(true, None)
        case CommitLost(error) => Failing(attempt.owner, attempt.epoch, error)
        case AppliedButRaised(error) => Failing(attempt.owner, attempt.epoch, error)
      )
    case WriteFailed(fault) =>
      if job.None? || !Admits(FailedUpdate(attempt.owner, attempt.epoch, attempt.error), job.value.row)
         || fault.CommitOk?
      then Returned(false, Some(attempt.error))
      else Raised
    case Abort => Raised
  }
}

/** The worker service over sessions, transaction by transaction, with other workers in between. */
module WorkerService {
  import opened Prelude
  import opened Domain
  import opened JobRows
  import opened JobRepository
  import opened Attempts

  function JobIn(tables: Tables, id: JobId): Option<JobState> {
    if id in tables.rows then Some(JobState(tables.rows[id], LogOf(tables, id))) else None
  }

  function WithJob(tables: Tables, id: JobId, job: JobState): Tables {
    tables.(rows := tables.rows[id := job.row], events := tables.events[id := job.events])
  }

  /** The committed tables agree with `job`'s view of the job and nothing else has moved. */
  ghost predicate Reaches(before: Tables, id: JobId, job: JobState, after: Tables) {
    || (after == before && JobIn(before, id) == Some(job))
    || after == WithJob(before, id, job)
  }

  /** What other attempts may do to a job whose epoch `epoch` belongs to this attempt (0: none does). */
  ghost predicate RelyJob(before: JobState, after: JobState, epoch: nat) {
    && Monotone(before, after)
    && (epoch != 0 && before.row.leaseEpoch == epoch == after.row.leaseEpoch ==> after == before)
  }

  ghost predicate Rely(before: Tables, after: Tables, id: JobId, epoch: nat) {
    JobIn(before, id).Some? ==>
      JobIn(after, id).Some? && RelyJob(JobIn(before, id).value, JobIn(after, id).value, epoch)
  }

  /** What every move of every attempt keeps about one job. */
  ghost predicate Monotone(before: JobState, after: JobState) {
    && before.row.leaseEpoch <= after.row.leaseEpoch
    && before.events <= after.events
    && (before.row.status == SUCCESS ==> after.row == before.row)
  }

  /** The job is done, or an epoch later than `epoch` has been granted. */
  ghost predicate FinishedOrReclaimed(job: JobState, epoch: nat) {
    job.row.status == SUCCESS || (epoch != 0 && epoch < job.row.leaseEpoch)
  }

  /** What other workers do in each gap between two transactions of this one. */
  type Environment = (nat, Tables, nat) -> Tables

  ghost predicate Respects(others: Environment, id: JobId) {
    forall gap, tables, epoch :: Rely(tables, others(gap, tables, epoch), id, epoch)
  }

  ghost predicate Undisturbed(others: Environment) {
    forall gap, tables, epoch :: others(gap, tables, epoch) == tables
  }

  /** The clock reading, processor behaviour and commit faults met by one pass. */
  datatype Circumstances = Circumstances(
    now: int,
    claimFault: CommitFault,
    processor: Processor,
    successFault: CommitFault,
    failureFault: CommitFault)

  datatype Processor = Yields(result: Document) | Fails(error: string)

  // ---------------------------------------------------------------- what a delivery achieves

  /** A worker may start on a job that was never started or has failed, or whose worker let its lease expire. */
  predicate Free(row: JobRow, now: int) {
    || row.status == PENDING || row.status == FAILED
    || (row.status == PROCESSING && (row.leaseExpiresAt.None? || row.leaseExpiresAt.value < now))
  }

  function Started(job: JobState, owner: WorkerId, now: int, leaseSeconds: int): JobState {
    JobState(JobRow(PROCESSING, job.row.result, job.row.error, Some(owner), Some(now + leaseSeconds), job.row.leaseEpoch + 1),
             job.events + [ProcessingStarted(job.row.leaseEpoch + 1)])
  }

  function Succeeded(job: JobState, result: Document): JobState {
    JobState(JobRow(SUCCESS, Some(result), None, None, None, job.row.leaseEpoch), job.events + [ProcessingCompleted(result)])
  }

  function Failed(job: JobState, error: string): JobState {
    JobState(JobRow(FAILED, job.row.result, Some(error), None, None, job.row.leaseEpoch),
             job.events + [ProcessingFailed(error)])
  }

  /** The failure is recorded exactly when the job is still being processed under `epoch`, and reported. */
  ghost predicate FailureRecorded(found: JobState, after: JobState, reply: Attempt, epoch: nat, error: string,
                                  fault: CommitFault) {
    var current := found.row.leaseEpoch == epoch && found.row.status == PROCESSING;
    && after == (if current && !fault.CommitLost? then Failed(found, error) else found)
    && reply == (if current && !fault.CommitOk? then Raised else Returned(false, Some(error)))
  }

  /** What processing under `epoch` does to a job that stood at `start`: `first` and `last` are the job as its
      first and its last write found it. A yielded result is recorded exactly when the epoch is still current,
      and acknowledged either way; a failure is recorded and reported only when the processor failed or a
      commit did. */
  ghost predicate Processed(start: JobState, first: JobState, last: JobState, after: JobState, reply: Attempt, epoch: nat,
                            met: Circumstances) {
    && RelyJob(start, first, epoch)
    && match met.processor
       case Fails(error) => last == first && FailureRecorded(first, after, reply, epoch, error, met.failureFault)
       case Yields(result) =>
         if first.row.leaseEpoch != epoch then last == first && reply == Returned(true, None) && after == first
         else
           && first == start
           && match met.successFault
              case CommitOk => last == first && reply == Returned(true, None) && after == Succeeded(start, result)
              case CommitLost(error) =>
                RelyJob(start, last, epoch) && FailureRecorded(last, after, reply, epoch, error, met.failureFault)
              case AppliedButRaised(error) =>
                && RelyJob(Succeeded(start, result), last, epoch)
                && after == last && reply == Returned(false, Some(error))
  }

  lemma {:induction false} ReachesMeans(before: Tables, id: JobId, job: JobState, after: Tables)
    requires Reaches(before, id, job, after)
    ensures JobIn(after, id) == Some(job)
    ensures after.outbox == before.outbox
    ensures forall other :: other != id ==> JobIn(after, other) == JobIn(before, other)
  {
  }

  lemma {:induction false} ClaimMeans(job: JobState, owner: WorkerId, now: int, leaseSeconds: int, fault: CommitFault)
    ensures var move := Claim(owner, now, leaseSeconds, fault);
            && JobAfter(job, Attempt.Idle, move)
                 == (if Free(job.row, now) && !fault.CommitLost? then Started(job, owner, now, leaseSeconds) else job)
            && AttemptAfter(Some(job), Attempt.Idle, move)
                 == (if !Free(job.row, now) then NotGranted
                     else if fault.CommitOk? then Leased(owner, job.row.leaseEpoch + 1) else Raised)
  {
  }

  /** A success write is fenced exactly by the epoch. */
  lemma {:induction false} SuccessMeans(start: JobState, found: JobState, owner: WorkerId, epoch: nat,
      result: Document, fault: CommitFault)
    requires start.row.status == PROCESSING && HoldsLease(start.row, owner, epoch) && epoch > 0
    requires RelyJob(start, found, epoch)
    ensures var attempt := Computed(owner, epoch, result);
            var current := found.row.leaseEpoch == epoch;
            && (current ==> found == start)
            && JobAfter(found, attempt, WriteSuccess(fault))
                 == (if current && !fault.CommitLost? then Succeeded(found, result) else found)
            && AttemptAfter(Some(found), attempt, WriteSuccess(fault))
                 == (if current && !fault.CommitOk? then Failing(owner, epoch, fault.error) else Returned(true, None))
  {
  }

  lemma {:induction false} FailureMeans(found: JobState, owner: WorkerId, epoch: nat, error: string, fault: CommitFault)
    requires found.row.leaseEpoch == epoch && found.row.status == PROCESSING ==> found.row.leaseOwner == Some(owner)
    requires found.row.leaseEpoch == epoch ==> found.row.status != PENDING
    ensures var attempt := Failing(owner, epoch, error);
            FailureRecorded(found, JobAfter(found, attempt, WriteFailed(fault)),
                            AttemptAfter(Some(found), attempt, WriteFailed(fault)), epoch, error, fault)
  {
  }

  class Worker {
    const workerId: WorkerId
    const leaseSeconds: int

    constructor (workerId: WorkerId, leaseSeconds: int)
      ensures this.workerId == workerId && this.leaseSeconds == leaseSeconds
    {
      this.workerId := workerId;
      this.leaseSeconds := leaseSeconds;
    }

    method ClaimTransaction(db: Database, id: JobId, now: int, fault: CommitFault) returns (attempt: Attempt)
      modifies db
      ensures attempt == AttemptAfter(JobIn(old(db.tables), id), Idle, Claim(workerId, now, leaseSeconds, fault))
      ensures match JobIn(old(db.tables), id)
              case None => db.tables == old(db.tables)
              case Some(job) =>
                Reaches(old(db.tables), id, JobAfter(job, Idle, Claim(workerId, now, leaseSeconds, fault)), db.tables)
    {
      var session := db.Begin();
      var jobs := new JobRepository(session);
      var events := new EventRepository(session);
      var lease := jobs.ClaimForProcessing(id, workerId, now, leaseSeconds);
      if lease.None? {
        return NotGranted;
      }
      events.Add(id, ProcessingStarted(lease.value.epoch));
      if fault.CommitLost? {
        return Raised;
      }
      db.Commit(session);
      attempt := if fault.CommitOk? then Leased(workerId, lease.value.epoch) else Raised;
    }

    method ReadTransaction(db: Database, id: JobId) returns (attempt: Attempt)
      ensures attempt == AttemptAfter(JobIn(db.tables, id), NotGranted, ReadStatus)
    {
      var session := db.Begin();
      var jobs := new JobRepository(session);
      var existing := jobs.Get(id);
      attempt := if existing.Some? && existing.value.status == SUCCESS
      then Returned(true, None) else Returned(false, Some(LEASE_HELD));
    }

    method SuccessTransaction(db: Database, id: JobId, epoch: nat, result: Document, fault: CommitFault)
      returns (attempt: Attempt)
      modifies db
      ensures attempt == AttemptAfter(JobIn(old(db.tables), id), Computed(workerId, epoch, result), WriteSuccess(fault))
      ensures match JobIn(old(db.tables), id)
              case None => db.tables == old(db.tables)
              case Some(job) =>
                Reaches(old(db.tables), id, JobAfter(job, Computed(workerId, epoch, result), WriteSuccess(fault)), db.tables)
    {
      var session := db.Begin();
      var jobs := new JobRepository(session);
      var events := new EventRepository(session);
      var committed := jobs.UpdateStatus(id, SuccessUpdate(workerId, epoch, result));
      if !committed.RowChanged? {
        return Returned(true, None);
      }
      events.Add(id, ProcessingCompleted(result));
      if !fault.CommitLost? {
        db.Commit(session);
      }
      attempt := if fault.CommitOk? then Returned(true, None) else Failing(workerId, epoch, fault.error);
    }

    method FailureTransaction(db: Database, id: JobId, epoch: nat, error: string, fault: CommitFault)
      returns (attempt: Attempt)
      modifies db
      ensures attempt == AttemptAfter(JobIn(old(db.tables), id), Failing(workerId, epoch, error), WriteFailed(fault))
      ensures match JobIn(old(db.tables), id)
              case None => db.tables == old(db.tables)
              case Some(job) =>
                Reaches(old(db.tables), id, JobAfter(job, Failing(workerId, epoch, error), WriteFailed(fault)), db.tables)
    {
      var session := db.Begin();
      var jobs := new JobRepository(session);
      var events := new EventRepository(session);
      var marked := jobs.UpdateStatus(id, FailedUpdate(workerId, epoch, error));
      if !marked.RowChanged? {
        return Returned(false, Some(error));
      }
      events.Add(id, ProcessingFailed(error));
      if !fault.CommitLost? {
        db.Commit(session);
      }
      attempt := if fault.CommitOk? then Returned(false, Some(error)) else Raised;
    }

    /** Other workers run in the given gap. */
    method LetOthersRun(db: Database, id: JobId, epoch: nat, others: Environment, gap: nat)
      requires Respects(others, id)
      modifies db
      ensures Rely(old(db.tables), db.tables, id, epoch)
      ensures Undisturbed(others) ==> db.tables == old(db.tables)
    {
      var next := others(gap, db.tables, epoch);
      assert Rely(db.tables, next, id, epoch);
      db.tables := next;
    }

    /** The `try` block of the source: run the processor, then write the outcome under the fencing token. */
    method ProcessAndRecord(db: Database, id: JobId, epoch: nat, met: Circumstances, others: Environment)
      returns (reply: Attempt, ghost first: JobState, ghost last: JobState)
      requires Respects(others, id)
      requires JobIn(db.tables, id).Some?
      requires JobIn(db.tables, id).value.row.status == PROCESSING
      requires HoldsLease(JobIn(db.tables, id).value.row, workerId, epoch) && epoch > 0
      modifies db
      ensures reply.Returned? || reply.Raised?
      ensures JobIn(db.tables, id).Some?
      ensures Processed(JobIn(old(db.tables), id).value, first, last, JobIn(db.tables, id).value, reply, epoch, met)
      ensures Monotone(JobIn(old(db.tables), id).value, JobIn(db.tables, id).value)
      ensures reply.Returned? && reply.ok ==> FinishedOrReclaimed(JobIn(db.tables, id).value, epoch)
      ensures Undisturbed(others) ==>
                && first == JobIn(old(db.tables), id).value
                && db.tables.outbox == old(db.tables.outbox)
                && forall other :: other != id ==> JobIn(db.tables, other) == JobIn(old(db.tables), other)
    {
      hide JobAfter, AttemptAfter, Reaches, Undisturbed;
      ghost var start := JobIn(db.tables, id).value;
      LetOthersRun(db, id, epoch, others, 0);
      first := JobIn(db.tables, id).value;
      last := first;
      var error: string;
      if met.processor.Yields? {
        ghost var before := db.tables;
        SuccessMeans(start, first, workerId, epoch, met.processor.result, met.successFault);
        reply := SuccessTransaction(db, id, epoch, met.processor.result, met.successFault);
        ReachesMeans(before, id, JobAfter(first, Computed(workerId, epoch, met.processor.result), WriteSuccess(met.successFault)),
                     db.tables);
        if reply.Returned? {
          return;
        }
        error := reply.error;
        LetOthersRun(db, id, epoch, others, 1);
        last := JobIn(db.tables, id).value;
      } else {
        error := met.processor.error;
      }
      ghost var before := db.tables;
      FailureMeans(last, workerId, epoch, error, met.failureFault);
      reply := FailureTransaction(db, id, epoch, error, met.failureFault);
      ReachesMeans(before, id, JobAfter(last, Failing(workerId, epoch, error), WriteFailed(met.failureFault)), db.tables);
    }

    /** One delivery of a job's event. A job that is not free is acknowledged if it is finished and otherwise sent
        round again; a free one is claimed and processed. An acknowledgement promises that the job is finished, or
        that another attempt has claimed it since this one did; the log only grows and the epoch never goes back. */
    method HandleEvent(db: Database, id: JobId, met: Circumstances, others: Environment)
      returns (reply: Attempt, grant: Option<nat>, ghost first: JobState, ghost last: JobState)
      requires Respects(others, id)
      modifies db
      ensures reply.Returned? || reply.Raised?
      ensures JobIn(old(db.tables), id).Some? ==>
                && JobIn(db.tables, id).Some?
                && Monotone(JobIn(old(db.tables), id).value, JobIn(db.tables, id).value)
                && (grant.Some? ==> JobIn(old(db.tables), id).value.row.leaseEpoch < grant.value)
                && (reply.Returned? && reply.ok ==>
                      FinishedOrReclaimed(JobIn(db.tables, id).value, grant.GetOr(0)))
      ensures JobIn(old(db.tables), id).Some? ==>
                var job, after := JobIn(old(db.tables), id).value, JobIn(db.tables, id).value;
                if !Free(job.row, met.now) then
                  grant.None? && reply == if after.row.status == SUCCESS then Returned(true, None)
                                          else Returned(false, Some(LEASE_HELD))
                else if !met.claimFault.CommitOk? then
                  && grant.None? && reply.Raised?
                  && after == if met.claimFault.CommitLost? then job else Started(job, workerId, met.now, leaseSeconds)
                else
                  && grant == Some(job.row.leaseEpoch + 1)
                  && Processed(Started(job, workerId, met.now, leaseSeconds), first, last, after, reply,
                               job.row.leaseEpoch + 1, met)
      ensures JobIn(old(db.tables), id).None? && Undisturbed(others) ==>
                reply == Returned(false, Some(LEASE_HELD)) && db.tables == old(db.tables)
      ensures JobIn(old(db.tables), id).Some? && Undisturbed(others) && FaultFree(met) ==>
                && var job := JobIn(old(db.tables), id).value;
                && var epoch := job.row.leaseEpoch + 1;
                && var log := job.events + [ProcessingStarted(epoch)];
                && db.tables.outbox == old(db.tables.outbox)
                && (forall other :: other != id ==> JobIn(db.tables, other) == JobIn(old(db.tables), other))
                && (reply, JobIn(db.tables, id).value) ==
                     if job.row.status == SUCCESS then (Returned(true, None), job)
                     else if !Free(job.row, met.now) then (Returned(false, Some(LEASE_HELD)), job)
                     else
                       match met.processor
                       case Yields(result) =>
                         (Returned(true, None),
                          JobState(JobRow(SUCCESS, Some(result), None, None, None, epoch), log + [ProcessingCompleted(result)]))
                       case Fails(error) =>
                         (Returned(false, Some(error)),
                          JobState(JobRow(FAILED, job.row.result, Some(error), None, None, epoch),
                                   log + [ProcessingFailed(error)]))
    {
      hide JobAfter, AttemptAfter, Reaches, Processed, Respects, Undisturbed;
      grant := None;
      ghost var before := JobIn(db.tables, id);
      ghost var tables := db.tables;
      ghost var claim := Claim(workerId, met.now, leaseSeconds, met.claimFault);
      first := before.GetOr(NEW_JOB);
      last := first;
      NotThere(claim, ReadStatus);
      ClaimMeans(first, workerId, met.now, leaseSeconds, met.claimFault);
      reply := ClaimTransaction(db, id, met.now, met.claimFault);
      if before.Some? {
        ReachesMeans(tables, id, JobAfter(first, Attempt.Idle, claim), db.tables);
      }
      if reply.Raised? {
        return;
      }
      if reply.NotGranted? {
        LetOthersRun(db, id, 0, others, 0);
        ReadMeans(JobIn(db.tables, id));
        reply := ReadTransaction(db, id);
        return;
      }
      grant := Some(reply.epoch);
      ghost var start := JobIn(db.tables, id).value;
      reply, first, last := ProcessAndRecord(db, id, reply.epoch, met, others);
      if Undisturbed(others) && FaultFree(met) {
        ProcessedUndisturbed(start, first, last, JobIn(db.tables, id).value, reply, grant.value, met);
      }
    }
  }

  ghost predicate FaultFree(met: Circumstances) {
    met.claimFault.CommitOk? && met.successFault.CommitOk? && met.failureFault.CommitOk?
  }

  lemma {:induction false} NotThere(claim: Move, read: Move)
    requires claim.Claim? && read.ReadStatus?
    ensures AttemptAfter(None, Attempt.Idle, claim) == NotGranted
    ensures AttemptAfter(None, NotGranted, read) == Returned(false, Some(LEASE_HELD))
  {
  }

  lemma {:induction false} ReadMeans(job: Option<JobState>)
    ensures AttemptAfter(job, NotGranted, ReadStatus)
         == if job.Some? && job.value.row.status == SUCCESS then Returned(true, None)
            else Returned(false, Some(LEASE_HELD))
  {
  }

  lemma {:induction false} ProcessedUndisturbed(start: JobState, first: JobState, last: JobState, after: JobState,
      reply: Attempt, epoch: nat, met: Circumstances)
    requires Processed(start, first, last, after, reply, epoch, met) && FaultFree(met)
    requires first == start && start.row.leaseEpoch == epoch && start.row.status == PROCESSING
    ensures match met.processor
            case Yields(result) => reply == Returned(true, None) && after == Succeeded(start, result)
            case Fails(error) => reply == Returned(false, Some(error)) && after == Failed(start, error)
  {
  }
}
