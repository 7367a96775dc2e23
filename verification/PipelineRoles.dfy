/** The steps every worker role takes on a job row, and what no mixture of roles can undo. */
module PipelineRoles {
  import opened Prelude
  import opened Domain
  import opened JobRows
  import opened Attempts

  /** One committed transaction of some role, with arbitrary arguments. */
  datatype RoleStep =
    | ClaimStep(owner: WorkerId, now: int, leaseSeconds: int)
    | FencedSuccess(owner: WorkerId, epoch: nat, result: Document)
    | FencedFailure(owner: WorkerId, epoch: nat, error: string)
    | InferenceHandOff(result: Document)
    | DownstreamSuccess(result: Document)
    | DownstreamFailure(error: string)
    | Renewal(owner: WorkerId, epoch: nat, now: int, leaseSeconds: int)

  function DownstreamSuccessUpdate(result: Document): StatusUpdate {
    PlainUpdate(SUCCESS).(result := Some(result), clearError := true)
  }

  function DownstreamFailureUpdate(error: string): StatusUpdate {
    PlainUpdate(FAILED).(error := Some(error))
  }

  function RowAfterUpdate(row: JobRow, update: StatusUpdate): JobRow {
    if Admits(update, row) then Updated(update, row) else row
  }

  function After(job: JobState, step: RoleStep): JobState {
    match step
    case ClaimStep(owner, now, leaseSeconds) =>
      if Claimable(job.row, now) then
        JobState(Claimed(job.row, owner, now, leaseSeconds),
                 job.events + [ProcessingStarted(job.row.leaseEpoch + 1)])
      else job
    case FencedSuccess(owner, epoch, result) =>
      var update := SuccessUpdate(owner, epoch, result);
      if Admits(update, job.row)
      then JobState(Updated(update, job.row), job.events + [ProcessingCompleted(result)]) else job
    case FencedFailure(owner, epoch, error) =>
      var update := FailedUpdate(owner, epoch, error);
      if Admits(update, job.row)
      then JobState(Updated(update, job.row), job.events + [ProcessingFailed(error)]) else job
    case InferenceHandOff(result) => job.(events := job.events + [Event.InferenceCompleted(result)])
    case DownstreamSuccess(result) =>
      JobState(RowAfterUpdate(job.row, DownstreamSuccessUpdate(result)),
               job.events + [DownstreamCompleted(result)])
    case DownstreamFailure(error) =>
      JobState(RowAfterUpdate(job.row, DownstreamFailureUpdate(error)),
               job.events + [ProcessingFailed(error)])
    case Renewal(owner, epoch, now, leaseSeconds) =>
      if HoldsLease(job.row, owner, epoch)
      then job.(row := job.row.(leaseExpiresAt := Some(now + leaseSeconds))) else job
  }

  function Run(job: JobState, steps: seq<RoleStep>): JobState
    decreases |steps|
  {
    if steps == [] then job else Run(After(job, steps[0]), steps[1..])
  }

  predicate Sound(row: JobRow) {
    && (row.status in {PROCESSING, SUCCESS} ==> row.leaseEpoch >= 1)
    && (row.status == SUCCESS ==> row.error == None && row.result.Some?)
  }

  lemma {:induction false} RunKeepsSound(job: JobState, steps: seq<RoleStep>)
    requires Sound(job.row)
    ensures Sound(Run(job, steps).row)
    decreases |steps|
  {
    if steps != [] {
      RunKeepsSound(After(job, steps[0]), steps[1..]);
    }
  }

  lemma {:induction false} RunKeepsSuccess(job: JobState, steps: seq<RoleStep>)
    requires job.row.status == SUCCESS
    ensures var row := Run(job, steps).row;
            && row.status == SUCCESS && row.result == job.row.result
            && row.error == job.row.error && row.leaseEpoch == job.row.leaseEpoch
    decreases |steps|
  {
    if steps != [] {
      RunKeepsSuccess(After(job, steps[0]), steps[1..]);
    }
  }

  /** Once any mixture of unified, inference and downstream steps has brought a job to SUCCESS, no further
      mixture changes its status, result, error or epoch; it was claimed, and it shows no error. */
  lemma {:induction false} SuccessIsAbsorbing(before: seq<RoleStep>, later: seq<RoleStep>)
    requires Run(NEW_JOB, before).row.status == SUCCESS
    ensures var done := Run(NEW_JOB, before).row;
            var row := Run(Run(NEW_JOB, before), later).row;
            && row.status == SUCCESS && row.result == done.result && row.leaseEpoch == done.leaseEpoch
            && row.error == None && done.result.Some? && done.leaseEpoch >= 1
  {
    RunKeepsSound(NEW_JOB, before);
    RunKeepsSuccess(Run(NEW_JOB, before), later);
  }

  /** Every move of a unified attempt is one of the steps above, or leaves the job alone. */
  lemma {:induction false} UnifiedMovesAreRoleSteps(job: JobState, attempt: Attempt, move: Move) returns (steps: seq<RoleStep>)
    requires CanMove(attempt, move)
    ensures |steps| <= 1 && Run(job, steps) == JobAfter(job, attempt, move)
  {
    steps := [];
    if JobAfter(job, attempt, move) != job {
      match move
      case Claim(owner, now, leaseSeconds, _) => steps := [ClaimStep(owner, now, leaseSeconds)];
      case WriteSuccess(_) => steps := [FencedSuccess(attempt.owner, attempt.epoch, attempt.result)];
      case WriteFailed(_) => steps := [FencedFailure(attempt.owner, attempt.epoch, attempt.error)];
      assert Run(After(job, steps[0]), steps[1..]) == After(job, steps[0]);
    }
  }

  /** Conversely the fenced steps are those moves, with a commit that holds, and a renewal moves the expiry of the
      row exactly when owner and epoch match. */
  lemma {:induction false} FencedStepsAreMoves(job: JobState, owner: WorkerId, epoch: nat, now: int,
      leaseSeconds: int, result: Document, error: string)
    ensures After(job, ClaimStep(owner, now, leaseSeconds))
         == JobAfter(job, Attempt.Idle, Claim(owner, now, leaseSeconds, CommitOk))
    ensures After(job, FencedSuccess(owner, epoch, result))
         == JobAfter(job, Computed(owner, epoch, result), WriteSuccess(CommitOk))
    ensures After(job, FencedFailure(owner, epoch, error))
         == JobAfter(job, Failing(owner, epoch, error), WriteFailed(CommitOk))
    ensures var row, after := job.row, After(job, Renewal(owner, epoch, now, leaseSeconds));
            && after.events == job.events
            && after.row == if row.leaseOwner != Some(owner) || row.leaseEpoch != epoch then row
                            else JobRow(row.status, row.result, row.error, Some(owner), Some(now + leaseSeconds), epoch)
  {
  }

  /** The downstream completion is acknowledged whatever `update_status` says. The row shows SUCCESS
      afterwards exactly when it was being processed, or finished, before. */
  lemma {:induction false} DownstreamCompletionLandsIff(job: JobState, result: Document)
    ensures After(job, DownstreamSuccess(result)).row.status == SUCCESS
            <==> job.row.status == PROCESSING || job.row.status == SUCCESS
    ensures job.row.status == PROCESSING ==> After(job, DownstreamSuccess(result)).row.result == Some(result)
    ensures job.row.status != PROCESSING ==> After(job, DownstreamSuccess(result)).row == job.row
    ensures DownstreamCompleted(result) in After(job, DownstreamSuccess(result)).events
  {
  }

  /** The consequence: a downstream failure followed by a successful retry logs a completion and leaves
      the row FAILED. */
  lemma {:induction false} RetriedDownstreamStaysFailed(owner: WorkerId, inference: Document, error: string,
      result: Document)
    ensures var job := Run(NEW_JOB, [ClaimStep(owner, 0, 1800), InferenceHandOff(inference),
                                     DownstreamFailure(error), DownstreamSuccess(result)]);
            job.row.status == FAILED && job.events != [] && job.events[|job.events| - 1] == DownstreamCompleted(result)
  {
    var s0, s1, s2, s3 := ClaimStep(owner, 0, 1800), InferenceHandOff(inference),
                          DownstreamFailure(error), DownstreamSuccess(result);
    var j1 := After(NEW_JOB, s0);
    var j2 := After(j1, s1);
    var j3 := After(j2, s2);
    var j4 := After(j3, s3);
    assert [s0, s1, s2, s3][1..] == [s1, s2, s3];
    assert [s1, s2, s3][1..] == [s2, s3];
    assert [s2, s3][1..] == [s3];
    assert [s3][1..] == [];
    calc {
      Run(NEW_JOB, [s0, s1, s2, s3]);
      Run(j1, [s1, s2, s3]);
      Run(j2, [s2, s3]);
      Run(j3, [s3]);
      Run(j4, []);
      j4;
    }
  }
}

/** The inference and downstream services over sessions. */
module PipelineServices {
  import opened Prelude
  import opened Domain
  import opened JobRows
  import opened JobRepository
  import opened Attempts
  import opened MessageHandler
  import opened PipelineRoles
  import opened WorkerService

  class InferencePipelineService {
    const downstreamTopic: Topic

    constructor (downstreamTopic: Topic)
      ensures this.downstreamTopic == downstreamTopic
    {
      this.downstreamTopic := downstreamTopic;
    }

    /** Logs the inference result and queues the downstream message in one commit; the row is not
        consulted, so a worker that has lost its lease hands over all the same. */
    method HandOffTransaction(db: Database, id: JobId, result: Document, downstreamPayload: Document)
      modifies db
      ensures db.tables.rows == old(db.tables.rows)
      ensures db.tables.outbox == old(db.tables.outbox)
                                  + [OutboxRow(downstreamTopic, Message(id, downstreamPayload), false, 0)]
      ensures JobIn(old(db.tables), id).Some? ==>
                && JobIn(db.tables, id) == Some(After(JobIn(old(db.tables), id).value, InferenceHandOff(result)))
                && JobIn(db.tables, id).value.events
                     == JobIn(old(db.tables), id).value.events + [Event.InferenceCompleted(result)]
      ensures forall other :: other != id ==> JobIn(db.tables, other) == JobIn(old(db.tables), other)
    {
      var session := db.Begin();
      var events := new EventRepository(session);
      var outbox := new OutboxRepository(session);
      events.Add(id, Event.InferenceCompleted(result));
      outbox.Add(downstreamTopic, Message(id, downstreamPayload));
      db.Commit(session);
    }
  }

  /** What every step of every role keeps about a job: its log only grows, its epoch never falls, and a finished
      job stays as it is. */
  ghost predicate Kept(before: JobState, after: JobState) {
    && before.events <= after.events
    && before.row.leaseEpoch <= after.row.leaseEpoch
    && (before.row.status == SUCCESS ==>
          && after.row.status == SUCCESS && after.row.result == before.row.result
          && after.row.error == before.row.error && after.row.leaseEpoch == before.row.leaseEpoch)
  }

  lemma {:induction false} StepsKeep(job: JobState, steps: seq<RoleStep>)
    ensures Kept(job, Run(job, steps))
    decreases |steps|
  {
    if steps != [] {
      StepsKeep(After(job, steps[0]), steps[1..]);
    }
  }

  ghost predicate JobKept(before: Tables, after: Tables, id: JobId) {
    JobIn(before, id).Some? ==> JobIn(after, id).Some? && Kept(JobIn(before, id).value, JobIn(after, id).value)
  }

  /** What other workers of any role do in each gap between two transactions. */
  type Environment = (nat, Tables) -> Tables

  ghost predicate KeepJob(others: Environment, id: JobId) {
    forall gap, tables :: JobKept(tables, others(gap, tables), id)
  }

  ghost predicate Unmoved(others: Environment) {
    forall gap, tables :: others(gap, tables) == tables
  }

  datatype Circumstances = Circumstances(processor: Processor, completionFault: CommitFault, failureFault: CommitFault)

  const MISSING := "Job not found for downstream event"

  class DownstreamPipelineService {
    constructor () {}

    method CompletionTransaction(db: Database, id: JobId, result: Document, fault: CommitFault) returns (raised: bool)
      modifies db
      ensures raised <==> !fault.CommitOk?
      ensures fault.CommitLost? ==> db.tables == old(db.tables)
      ensures db.tables.outbox == old(db.tables.outbox)
      ensures JobIn(old(db.tables), id).Some? && !fault.CommitLost? ==>
                JobIn(db.tables, id) == Some(After(JobIn(old(db.tables), id).value, DownstreamSuccess(result)))
      ensures JobIn(old(db.tables), id).None? ==> JobIn(db.tables, id).None?
      ensures forall other :: other != id ==> JobIn(db.tables, other) == JobIn(old(db.tables), other)
    {
      var session := db.Begin();
      var jobs := new JobRepository(session);
      var events := new EventRepository(session);
      var ignored := jobs.UpdateStatus(id, DownstreamSuccessUpdate(result));
      events.Add(id, DownstreamCompleted(result));
      if !fault.CommitLost? {
        db.Commit(session);
      }
      raised := !fault.CommitOk?;
    }

    method FailureTransaction(db: Database, id: JobId, error: string, fault: CommitFault) returns (raised: bool)
      modifies db
      ensures raised <==> !fault.CommitOk?
      ensures fault.CommitLost? ==> db.tables == old(db.tables)
      ensures db.tables.outbox == old(db.tables.outbox)
      ensures JobIn(old(db.tables), id).Some? && !fault.CommitLost? ==>
                JobIn(db.tables, id) == Some(After(JobIn(old(db.tables), id).value, DownstreamFailure(error)))
      ensures JobIn(old(db.tables), id).None? ==> JobIn(db.tables, id).None?
      ensures forall other :: other != id ==> JobIn(db.tables, other) == JobIn(old(db.tables), other)
    {
      var session := db.Begin();
      var jobs := new JobRepository(session);
      var events := new EventRepository(session);
      var ignored := jobs.UpdateStatus(id, DownstreamFailureUpdate(error));
      events.Add(id, ProcessingFailed(error));
      if !fault.CommitLost? {
        db.Commit(session);
      }
      raised := !fault.CommitOk?;
    }

    method LetOthersRun(db: Database, id: JobId, others: Environment, gap: nat)
      requires KeepJob(others, id)
      modifies db
      ensures JobKept(old(db.tables), db.tables, id)
      ensures Unmoved(others) ==> db.tables == old(db.tables)
    {
      var next := others(gap, db.tables);
      assert JobKept(db.tables, next, id);
      db.tables := next;
    }

    /** The except branch. */
    method RecordFailure(db: Database, id: JobId, error: string, fault: CommitFault) returns (reply: RoleReply)
      modifies db
      ensures JobKept(old(db.tables), db.tables, id)
      ensures reply == if fault.CommitOk? then Reply(false, Some(error)) else RoleRaises
      ensures JobIn(old(db.tables), id).Some? ==>
                JobIn(db.tables, id).value == if fault.CommitLost? then JobIn(old(db.tables), id).value
                                              else After(JobIn(old(db.tables), id).value, DownstreamFailure(error))
    {
      ghost var before := JobIn(db.tables, id);
      if before.Some? {
        StepsKeep(before.value, [DownstreamFailure(error)]);
        RunOne(before.value, DownstreamFailure(error));
      }
      var raised := FailureTransaction(db, id, error, fault);
      reply := if raised then RoleRaises else Reply(false, Some(error));
    }

    /** One delivery, with other workers in between and faulty commits. A finished job is never undone. `found` is
        the job as the last write found it. A yielded result is acknowledged and logged whenever its commit is
        not faulty, and shows in the row exactly when the write found PROCESSING; a failure is reported, logged
        and shown exactly when the write found an unfinished job that had not failed. */
    method HandleEvent(db: Database, id: JobId, met: Circumstances, others: Environment)
      returns (reply: RoleReply, ghost found: Option<JobState>)
      requires KeepJob(others, id)
      modifies db
      ensures JobKept(old(db.tables), db.tables, id)
      ensures JobIn(old(db.tables), id).None? ==>
                reply == if met.failureFault.CommitOk? then Reply(false, Some(MISSING)) else RoleRaises
      ensures JobIn(old(db.tables), id).Some? && JobIn(old(db.tables), id).value.row.status == SUCCESS ==>
                reply == Reply(true, None) && db.tables == old(db.tables)
      ensures JobIn(old(db.tables), id).Some? && JobIn(old(db.tables), id).value.row.status != SUCCESS ==>
                && var job, after := JobIn(old(db.tables), id).value, JobIn(db.tables, id).value;
                && found.Some? && Kept(job, found.value)
                && (Unmoved(others) && (met.processor.Fails? || met.completionFault.CommitOk?) ==> found.value == job)
                && if met.processor.Yields? && met.completionFault.CommitOk? then
                     reply == Reply(true, None) && after == WithCompletion(found.value, met.processor.result)
                   else
                     && var error := if met.processor.Fails? then met.processor.error else met.completionFault.error;
                     && reply == (if met.failureFault.CommitOk? then Reply(false, Some(error)) else RoleRaises)
                     && after == if met.failureFault.CommitLost? then found.value else WithFailure(found.value, error)
    {
      hide After, Unmoved, KeepJob;
      found := None;
      var session := db.Begin();
      var jobs := new JobRepository(session);
      var existing := jobs.Get(id);
      if existing.None? {
        reply := RecordFailure(db, id, MISSING, met.failureFault);
        return;
      }
      if existing.value.status == SUCCESS {
        return Reply(true, None), None;
      }
      LetOthersRun(db, id, others, 0);
      var error: string;
      match met.processor {
        case Yields(result) =>
          found := JobIn(db.tables, id);
          WithCompletionMeans(found.value, result);
          var raised := CompletionTransaction(db, id, result, met.completionFault);
          if !raised {
            return Reply(true, None), found;
          }
          error := met.completionFault.error;
          LetOthersRun(db, id, others, 1);
        case Fails(message) =>
          error := message;
      }
      found := JobIn(db.tables, id);
      WithFailureMeans(found.value, error);
      reply := RecordFailure(db, id, error, met.failureFault);
    }
  }

  /** The job with the completion logged; the row shows it only if it was being processed. */
  function WithCompletion(job: JobState, result: Document): JobState {
    JobState(if job.row.status == PROCESSING
             then JobRow(SUCCESS, Some(result), None, job.row.leaseOwner, job.row.leaseExpiresAt, job.row.leaseEpoch)
             else job.row,
             job.events + [DownstreamCompleted(result)])
  }

  /** The job with the failure logged; the row shows it only if the job was neither finished nor failed. */
  function WithFailure(job: JobState, error: string): JobState {
    JobState(if job.row.status == PENDING || job.row.status == PROCESSING
             then JobRow(FAILED, job.row.result, Some(error), job.row.leaseOwner, job.row.leaseExpiresAt, job.row.leaseEpoch)
             else job.row,
             job.events + [ProcessingFailed(error)])
  }

  lemma {:induction false} WithCompletionMeans(job: JobState, result: Document)
    ensures After(job, DownstreamSuccess(result)) == WithCompletion(job, result)
    ensures Kept(job, WithCompletion(job, result))
  {
  }

  lemma {:induction false} WithFailureMeans(job: JobState, error: string)
    ensures After(job, DownstreamFailure(error)) == WithFailure(job, error)
    ensures Kept(job, WithFailure(job, error))
  {
  }

  lemma {:induction false} RunOne(job: JobState, step: RoleStep)
    ensures Run(job, [step]) == After(job, step)
  {
    assert [step][1..] == [];
    assert Run(After(job, step), []) == After(job, step);
  }
}
