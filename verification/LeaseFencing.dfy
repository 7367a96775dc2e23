/** Any number of worker attempts interleaved on one job row: leases, fencing tokens, the event log. */
module LeaseFencing {
  import opened Prelude
  import opened Domain
  import opened JobRows
  import opened Attempts
  import WorkerService

  /** `grants[e - 1]` is the attempt that was granted epoch `e`; `computed[i]` is what attempt `i` obtained
      from its processor. Both are history: no step reads them. An attempt that crashes just never moves again. */
  datatype System = System(
    job: JobState,
    attempts: seq<Attempt>,
    grants: seq<nat>,
    computed: seq<Option<Document>>)

  datatype Action =
    | Spawn
    | Do(who: nat, move: Move)
    | Renew(who: nat, now: int, leaseSeconds: int)

  const INITIAL := System(NEW_JOB, [], [], [])

  predicate Enabled(s: System, action: Action) {
    match action
    case Spawn => true
    case Do(who, move) => who < |s.attempts| && CanMove(s.attempts[who], move)
    case Renew(who, _, _) => who < |s.attempts| && Holds(s.attempts[who])
  }

  /** The claim commits, whether or not the worker learns of it. */
  predicate Grants(s: System, action: Action)
    requires Enabled(s, action)
  {
    action.Do? && action.move.Claim? && Claimable(s.job.row, action.move.now) && !action.move.fault.CommitLost?
  }

  function Next(s: System, action: Action): System
    requires Enabled(s, action)
    requires |s.computed| == |s.attempts|
  {
    match action
    case Spawn => s.(attempts := s.attempts + [Idle], computed := s.computed + [None])
    case Do(who, move) =>
      System(
        JobAfter(s.job, s.attempts[who], move),
        s.attempts[who := AttemptAfter(Some(s.job), s.attempts[who], move)],
        if Grants(s, action) then s.grants + [who] else s.grants,
        if move.ProcessorReturns? then s.computed[who := Some(move.result)] else s.computed)
    case Renew(who, now, leaseSeconds) =>
      if HoldsLease(s.job.row, s.attempts[who].owner, s.attempts[who].epoch) then
        s.(job := s.job.(row := s.job.row.(leaseExpiresAt := Some(now + leaseSeconds))))
      else s
  }

  // ---------------------------------------------------------------- invariant

  /** In modes A and B a row is owned, with an expiry, exactly while it is being processed. */
  predicate RowOk(row: JobRow) {
    && (row.status == PENDING <==> row.leaseEpoch == 0)
    && (row.status == PROCESSING <==> row.leaseOwner.Some?)
    && (row.status == PROCESSING <==> row.leaseExpiresAt.Some?)
    && (row.status == SUCCESS ==> row.result.Some? && row.error.None?)
  }

  predicate AttemptOk(row: JobRow, grants: seq<nat>, computed: Option<Document>, attempt: Attempt, who: nat) {
    && (Holds(attempt) ==> 1 <= attempt.epoch <= |grants| && grants[attempt.epoch - 1] == who)
    && (Unwritten(attempt) && attempt.epoch == row.leaseEpoch ==>
          row.status == PROCESSING && row.leaseOwner == Some(attempt.owner))
    && (attempt.Failing? && attempt.epoch == row.leaseEpoch && row.status != SUCCESS ==>
          row.status == PROCESSING && row.leaseOwner == Some(attempt.owner))
    && (attempt.Computed? ==> computed == Some(attempt.result))
    && (attempt.Idle? || attempt.NotGranted? ==> who !in grants)
  }

  ghost predicate Inv(s: System) {
    && |s.grants| == s.job.row.leaseEpoch
    && |s.computed| == |s.attempts|
    && RowOk(s.job.row)
    && Distinct(s.grants)
    && (forall e :: 0 <= e < |s.grants| ==> s.grants[e] < |s.attempts|)
    && (forall i :: 0 <= i < |s.attempts| ==> AttemptOk(s.job.row, s.grants, s.computed[i], s.attempts[i], i))
    && (s.job.row.status == SUCCESS ==> s.computed[s.grants[|s.grants| - 1]] == s.job.row.result)
  }

  lemma {:induction false} InitialInv()
    ensures Inv(INITIAL)
  {
  }

  lemma {:induction false} AttemptOf(s: System, i: nat)
    requires Inv(s) && i < |s.attempts|
    ensures |s.computed| == |s.attempts| && |s.grants| == s.job.row.leaseEpoch
    ensures AttemptOk(s.job.row, s.grants, s.computed[i], s.attempts[i], i)
    ensures i !in s.grants ==> forall e :: 0 <= e < |s.grants| ==> s.grants[e] != i
  {
    hide AttemptOk, RowOk;
  }

  /** A move keeps the mover's relation to the row. */
  lemma {:induction false} OwnAttemptKept(s: System, who: nat, move: Move)
    requires Inv(s) && Enabled(s, Do(who, move))
    ensures var t := Next(s, Do(who, move));
            |t.computed| == |t.attempts| && AttemptOk(t.job.row, t.grants, t.computed[who], t.attempts[who], who)
  {
    AttemptOf(s, who);
    RowOf(s);
    hide Inv, RowOk, Distinct;
  }

  lemma {:induction false} RowOf(s: System)
    requires Inv(s)
    ensures s.job.row.status == SUCCESS || s.job.row.status == PROCESSING ==> s.job.row.leaseEpoch >= 1
    ensures s.job.row.status == PROCESSING <==> s.job.row.leaseOwner.Some?
  {
    hide AttemptOk;
  }

  /** And that of every other attempt. */
  lemma {:induction false} OtherAttemptKept(s: System, who: nat, move: Move, i: nat)
    requires Inv(s) && Enabled(s, Do(who, move)) && i < |s.attempts| && i != who
    ensures var t := Next(s, Do(who, move));
            |t.computed| == |t.attempts| && AttemptOk(t.job.row, t.grants, t.computed[i], t.attempts[i], i)
  {
    AttemptOf(s, who);
    AttemptOf(s, i);
    hide Inv, RowOk, Distinct, AttemptAfter;
  }

  lemma {:induction false} AttemptsKept(s: System, action: Action, i: nat)
    requires Inv(s) && Enabled(s, action) && i < |Next(s, action).attempts|
    ensures var t := Next(s, action);
            |t.computed| == |t.attempts| && AttemptOk(t.job.row, t.grants, t.computed[i], t.attempts[i], i)
  {
    if action.Do? {
      if i == action.who {
        OwnAttemptKept(s, i, action.move);
      } else {
        OtherAttemptKept(s, action.who, action.move, i);
      }
    } else if i < |s.attempts| {
      AttemptOf(s, i);
    }
    hide JobAfter, AttemptAfter, CanMove;
  }

  /** A claim grants the next epoch, and only to an attempt that was never granted one. */
  lemma {:induction false} GrantsKept(s: System, action: Action)
    requires Inv(s) && Enabled(s, action)
    ensures var t := Next(s, action);
            && |t.grants| == t.job.row.leaseEpoch && |t.computed| == |t.attempts| && Distinct(t.grants)
            && forall e :: 0 <= e < |t.grants| ==> t.grants[e] < |t.attempts|
  {
    hide AttemptAfter, RowOk;
    if !action.Spawn? {
      AttemptOf(s, action.who);
    }
  }

  lemma {:induction false} RowKept(s: System, action: Action)
    requires Inv(s) && Enabled(s, action)
    ensures RowOk(Next(s, action).job.row)
  {
    if !action.Spawn? {
      AttemptOf(s, action.who);
    }
    InvRow(s);
    hide Inv, AttemptAfter, Distinct;
  }

  lemma {:induction false} InvRow(s: System)
    requires Inv(s)
    ensures RowOk(s.job.row) && |s.computed| == |s.attempts|
  {
    hide RowOk, AttemptOk, Distinct;
  }

  /** The result stays that of the last grantee. */
  lemma {:induction false} ResultKept(s: System, action: Action)
    requires Inv(s) && Enabled(s, action) && Next(s, action).job.row.status == SUCCESS
    ensures var t := Next(s, action);
            && 1 <= |t.grants| == t.job.row.leaseEpoch && t.grants[|t.grants| - 1] < |t.computed|
            && t.computed[t.grants[|t.grants| - 1]] == t.job.row.result
  {
    if !action.Spawn? {
      AttemptOf(s, action.who);
    }
    hide AttemptAfter, Distinct;
  }

  lemma {:induction false} StepKeepsInv(s: System, action: Action)
    requires Inv(s) && Enabled(s, action)
    ensures Inv(Next(s, action))
  {
    var t := Next(s, action);
    GrantsKept(s, action);
    RowKept(s, action);
    if t.job.row.status == SUCCESS {
      ResultKept(s, action);
    }
    forall i | 0 <= i < |t.attempts|
      ensures AttemptOk(t.job.row, t.grants, t.computed[i], t.attempts[i], i)
    {
      AttemptsKept(s, action, i);
    }
    hide Next, Enabled, AttemptOk, RowOk, Distinct;
  }

  // ---------------------------------------------------------------- runs

  ghost predicate Legal(s: System, actions: seq<Action>)
    decreases |actions|
  {
    |s.computed| == |s.attempts|
    && (actions == [] || (Enabled(s, actions[0]) && Legal(Next(s, actions[0]), actions[1..])))
  }

  ghost function Exec(s: System, actions: seq<Action>): System
    requires Legal(s, actions)
    decreases |actions|
  {
    if actions == [] then s else Exec(Next(s, actions[0]), actions[1..])
  }

  lemma {:induction false} RunKeepsInv(s: System, actions: seq<Action>)
    requires Inv(s) && Legal(s, actions)
    ensures Inv(Exec(s, actions))
    decreases |actions|
  {
    if actions != [] {
      StepKeepsInv(s, actions[0]);
      RunKeepsInv(Next(s, actions[0]), actions[1..]);
    }
  }

  // ---------------------------------------------------------------- fencing

  /** In every reachable state each epoch up to the row's has been granted to one attempt, and to one only;
      an attempt that holds a token holds the one it was granted. */
  lemma {:induction false} EachEpochGrantedOnce(actions: seq<Action>, i: nat, j: nat)
    requires Legal(INITIAL, actions)
    requires i < |Exec(INITIAL, actions).attempts| && j < |Exec(INITIAL, actions).attempts|
    requires Holds(Exec(INITIAL, actions).attempts[i]) && Holds(Exec(INITIAL, actions).attempts[j])
    ensures var s := Exec(INITIAL, actions);
            && |s.grants| == s.job.row.leaseEpoch && Distinct(s.grants)
            && 1 <= s.attempts[i].epoch <= s.job.row.leaseEpoch
            && s.grants[s.attempts[i].epoch - 1] == i
            && (s.attempts[i].epoch == s.attempts[j].epoch <==> i == j)
  {
    InitialInv();
    RunKeepsInv(INITIAL, actions);
    var s := Exec(INITIAL, actions);
    assert AttemptOk(s.job.row, s.grants, s.computed[i], s.attempts[i], i);
    assert AttemptOk(s.job.row, s.grants, s.computed[j], s.attempts[j], j);
  }

  /** A result write takes effect exactly when the writer's epoch is current, whatever its owner name is;
      and a write that does not take effect changes neither the row nor the log. */
  lemma {:induction false} WriteTakesEffectIffCurrent(actions: seq<Action>, i: nat)
    requires Legal(INITIAL, actions)
    requires i < |Exec(INITIAL, actions).attempts| && Exec(INITIAL, actions).attempts[i].Computed?
    ensures var s := Exec(INITIAL, actions);
            var attempt := s.attempts[i];
            var after := JobAfter(s.job, attempt, WriteSuccess(CommitOk));
            && (attempt.epoch == s.job.row.leaseEpoch ==>
                  && after.row.status == SUCCESS && after.row.result == Some(attempt.result)
                  && after.row.error == None && after.row.leaseOwner == None
                  && after.events == s.job.events + [ProcessingCompleted(attempt.result)])
            && (attempt.epoch != s.job.row.leaseEpoch ==> after == s.job)
  {
    InitialInv();
    RunKeepsInv(INITIAL, actions);
    var s := Exec(INITIAL, actions);
    assert AttemptOk(s.job.row, s.grants, s.computed[i], s.attempts[i], i);
  }

  /** The failure write: same token, and it can never undo a success, not even the attempt's own
      success whose commit took effect but raised. */
  lemma {:induction false} FailureTakesEffectIffCurrent(actions: seq<Action>, i: nat)
    requires Legal(INITIAL, actions)
    requires i < |Exec(INITIAL, actions).attempts| && Exec(INITIAL, actions).attempts[i].Failing?
    ensures var s := Exec(INITIAL, actions);
            var attempt := s.attempts[i];
            var after := JobAfter(s.job, attempt, WriteFailed(CommitOk));
            if attempt.epoch == s.job.row.leaseEpoch && s.job.row.status != SUCCESS then
              && after.row.status == FAILED && after.row.error == Some(attempt.error)
              && after.row.result == s.job.row.result && after.row.leaseOwner == None
              && after.events == s.job.events + [ProcessingFailed(attempt.error)]
            else after == s.job
  {
    InitialInv();
    RunKeepsInv(INITIAL, actions);
    var s := Exec(INITIAL, actions);
    assert AttemptOk(s.job.row, s.grants, s.computed[i], s.attempts[i], i);
  }

  /** A finished job shows the result of the attempt that was granted its last epoch. */
  lemma {:induction false} SuccessIsTheLastGrantees(actions: seq<Action>)
    requires Legal(INITIAL, actions)
    requires Exec(INITIAL, actions).job.row.status == SUCCESS
    ensures var s := Exec(INITIAL, actions);
            && s.job.row.leaseEpoch >= 1 && |s.grants| == s.job.row.leaseEpoch
            && var winner := s.grants[s.job.row.leaseEpoch - 1];
               && winner < |s.computed|
               && s.computed[winner].Some?
               && s.job.row.result == s.computed[winner]
               && s.job.row.error == None
  {
    InitialInv();
    RunKeepsInv(INITIAL, actions);
  }

  // ---------------------------------------------------------------- progress

  /** In every reachable state a claim is granted exactly on a job that was never started, that has failed, or
      whose lease has expired by the claimer's reading: it then starts the next epoch in the claimer's name. */
  lemma {:induction false} ClaimIsGrantedIff(actions: seq<Action>, who: nat, owner: WorkerId, now: int, leaseSeconds: int)
    requires Legal(INITIAL, actions)
    requires who < |Exec(INITIAL, actions).attempts| && Exec(INITIAL, actions).attempts[who].Idle?
    ensures var s := Exec(INITIAL, actions);
            var action := Do(who, Claim(owner, now, leaseSeconds, CommitOk));
            && Enabled(s, action) && |s.computed| == |s.attempts|
            && var row, t := s.job.row, Next(s, action);
            && (row.status == PROCESSING ==> row.leaseExpiresAt.Some?)
            && if row.status == PENDING || row.status == FAILED
                  || (row.status == PROCESSING && row.leaseExpiresAt.value < now) then
                 && t.job == JobState(
                      JobRow(PROCESSING, row.result, row.error, Some(owner), Some(now + leaseSeconds), row.leaseEpoch + 1),
                      s.job.events + [ProcessingStarted(row.leaseEpoch + 1)])
                 && t.attempts[who] == Leased(owner, row.leaseEpoch + 1)
                 && t.grants == s.grants + [who]
               else t.job == s.job && t.attempts[who] == NotGranted && t.grants == s.grants
  {
    InitialInv();
    RunKeepsInv(INITIAL, actions);
  }

  /** A reading at which a claim is granted, unless the job is finished. */
  function ClaimableAt(row: JobRow): int {
    if row.leaseExpiresAt.Some? then row.leaseExpiresAt.value + 1 else 0
  }

  /** A claim at that reading. */
  lemma {:induction false} ClaimStep(s: System, who: nat, owner: WorkerId, leaseSeconds: int)
    requires RowOk(s.job.row) && s.job.row.status != SUCCESS
    requires who < |s.attempts| && s.attempts[who].Idle? && |s.computed| == |s.attempts|
    ensures var claim := Do(who, Claim(owner, ClaimableAt(s.job.row), leaseSeconds, CommitOk));
            && Enabled(s, claim)
            && var t := Next(s, claim);
            && who < |t.attempts| == |t.computed| && t.attempts[who] == Leased(owner, s.job.row.leaseEpoch + 1)
            && t.job.row.status == PROCESSING && HoldsLease(t.job.row, owner, s.job.row.leaseEpoch + 1)
            && t.job.events == s.job.events + [ProcessingStarted(s.job.row.leaseEpoch + 1)]
  {
  }

  lemma {:induction false} ProcessStep(s: System, who: nat, result: Document)
    requires who < |s.attempts| == |s.computed| && s.attempts[who].Leased?
    ensures Enabled(s, Do(who, ProcessorReturns(result)))
    ensures var t := Next(s, Do(who, ProcessorReturns(result)));
            && t.job == s.job && who < |t.attempts| == |t.computed|
            && t.attempts[who] == Computed(s.attempts[who].owner, s.attempts[who].epoch, result)
  {
  }

  lemma {:induction false} WriteStep(s: System, who: nat)
    requires who < |s.attempts| == |s.computed| && s.attempts[who].Computed?
    requires s.job.row.status == PROCESSING && HoldsLease(s.job.row, s.attempts[who].owner, s.attempts[who].epoch)
    ensures Enabled(s, Do(who, WriteSuccess(CommitOk)))
    ensures var t := Next(s, Do(who, WriteSuccess(CommitOk)));
            && |t.attempts| == |t.computed|
            && t.job == JobState(JobRow(SUCCESS, Some(s.attempts[who].result), None, None, None, s.job.row.leaseEpoch),
                                 s.job.events + [ProcessingCompleted(s.attempts[who].result)])
  {
  }

  /** A renewal moves the expiry exactly when its epoch is current and the job is still being processed; it then
      holds off every claim whose reading is not past the new expiry. */
  lemma {:induction false} RenewalHoldsOffClaims(actions: seq<Action>, who: nat, now: int, leaseSeconds: int,
      other: nat, owner: WorkerId, reading: int)
    requires Legal(INITIAL, actions)
    requires var s := Exec(INITIAL, actions);
             && who < |s.attempts| && other < |s.attempts| && Unwritten(s.attempts[who]) && s.attempts[other].Idle?
    ensures var s := Exec(INITIAL, actions);
            && Enabled(s, Renew(who, now, leaseSeconds)) && |s.computed| == |s.attempts|
            && var t := Next(s, Renew(who, now, leaseSeconds));
            if s.job.row.leaseEpoch == s.attempts[who].epoch then
              && var row := s.job.row;
              && t.job == s.job.(row := JobRow(PROCESSING, row.result, row.error, Some(s.attempts[who].owner),
                                               Some(now + leaseSeconds), s.attempts[who].epoch))
              && Enabled(t, Do(other, Claim(owner, reading, leaseSeconds, CommitOk))) && |t.computed| == |t.attempts|
              && var u := Next(t, Do(other, Claim(owner, reading, leaseSeconds, CommitOk)));
                 if reading <= now + leaseSeconds then u.job == t.job && u.attempts[other] == NotGranted
                 else u.attempts[other] == Leased(owner, s.attempts[who].epoch + 1)
            else t.job == s.job
  {
    InitialInv();
    RunKeepsInv(INITIAL, actions);
    AttemptOf(Exec(INITIAL, actions), who);
    hide Legal, Exec, RowOk, Inv;
  }

  /** An attempt may fail at any point before its result write, computed or not; the failure then shows in row and
      log exactly when its epoch is still current, and is reported either way. */
  lemma {:induction false} AnAttemptMayFailUntilItWrites(actions: seq<Action>, who: nat, error: string)
    requires Legal(INITIAL, actions)
    requires var s := Exec(INITIAL, actions); who < |s.attempts| && Unwritten(s.attempts[who])
    ensures var s := Exec(INITIAL, actions);
            && Enabled(s, Do(who, TryRaises(error))) && |s.computed| == |s.attempts|
            && var t := Next(s, Do(who, TryRaises(error)));
            && Enabled(t, Do(who, WriteFailed(CommitOk))) && |t.computed| == |t.attempts|
            && var row, u := s.job.row, Next(t, Do(who, WriteFailed(CommitOk)));
            && u.attempts[who] == Returned(false, Some(error))
            && u.job == if row.leaseEpoch != s.attempts[who].epoch then s.job
                        else JobState(JobRow(FAILED, row.result, Some(error), None, None, row.leaseEpoch),
                                      s.job.events + [ProcessingFailed(error)])
  {
    InitialInv();
    RunKeepsInv(INITIAL, actions);
    AttemptOf(Exec(INITIAL, actions), who);
    hide Legal, Exec, RowOk, Inv;
  }

  /** However a job has fared, a new attempt can still finish it: every state of the invariant that is not
      SUCCESS has a continuation of one delivery that ends with any given result. */
  lemma {:induction false} AnyJobCanStillSucceed(s: System, owner: WorkerId, leaseSeconds: int, result: Document)
    returns (actions: seq<Action>)
    requires Inv(s) && s.job.row.status != SUCCESS
    ensures Legal(s, actions)
    ensures var t := Exec(s, actions);
            && t.job.row == JobRow(SUCCESS, Some(result), None, None, None, s.job.row.leaseEpoch + 1)
            && t.job.events == s.job.events + [ProcessingStarted(s.job.row.leaseEpoch + 1), ProcessingCompleted(result)]
  {
    var who := |s.attempts|;
    var claim := Do(who, Claim(owner, ClaimableAt(s.job.row), leaseSeconds, CommitOk));
    InvRow(s);
    var s1 := Next(s, Spawn);
    hide Inv, Next, RowOk, Enabled, Legal, Exec;
    SpawnStep(s);
    ClaimStep(s1, who, owner, leaseSeconds);
    var s2 := Next(s1, claim);
    ProcessStep(s2, who, result);
    var s3 := Next(s2, Do(who, ProcessorReturns(result)));
    WriteStep(s3, who);
    actions := Nowhere(Next(s3, Do(who, WriteSuccess(CommitOk))));
    actions := StartWith(s3, Do(who, WriteSuccess(CommitOk)), actions);
    actions := StartWith(s2, Do(who, ProcessorReturns(result)), actions);
    actions := StartWith(s1, claim, actions);
    actions := StartWith(s, Spawn, actions);
  }

  lemma {:induction false} SpawnStep(s: System)
    requires |s.computed| == |s.attempts|
    ensures Enabled(s, Spawn)
    ensures var t := Next(s, Spawn);
            t.job == s.job && t.attempts == s.attempts + [Idle] && |t.computed| == |t.attempts|
  {
  }

  lemma {:induction false} Nowhere(s: System) returns (actions: seq<Action>)
    requires |s.computed| == |s.attempts|
    ensures Legal(s, actions) && Exec(s, actions) == s
  {
    actions := [];
  }

  lemma {:induction false} StartWith(s: System, action: Action, rest: seq<Action>) returns (actions: seq<Action>)
    requires Enabled(s, action) && |s.computed| == |s.attempts| && Legal(Next(s, action), rest)
    ensures Legal(s, actions) && Exec(s, actions) == Exec(Next(s, action), rest)
  {
    hide Next, Enabled;
    actions := [action] + rest;
    assert actions[1..] == rest;
  }

  /** The assumption `HandleEvent` makes about the other workers is one that they keep. */
  lemma {:induction false} OthersKeepTheRely(s: System, who: nat, move: Move, me: nat)
    requires Inv(s) && Enabled(s, Do(who, move)) && me < |s.attempts| && me != who
    ensures WorkerService.RelyJob(s.job, Next(s, Do(who, move)).job,
                                  if Holds(s.attempts[me]) then s.attempts[me].epoch else 0)
  {
    assert AttemptOk(s.job.row, s.grants, s.computed[who], s.attempts[who], who);
    assert AttemptOk(s.job.row, s.grants, s.computed[me], s.attempts[me], me);
  }
}

/** The event log determines the row. */
module EventReplay {
  import opened Prelude
  import opened Domain
  import opened JobRows
  import opened Attempts
  import opened LeaseFencing

  datatype View = View(status: JobStatus, leaseEpoch: nat, result: Option<Document>, error: Option<string>)

  function Replay(events: seq<Event>): View {
    if events == [] then View(PENDING, 0, None, None)
    else
      var before := Replay(events[..|events| - 1]);
      match events[|events| - 1]
      case ProcessingStarted(epoch) => before.(status := PROCESSING, leaseEpoch := epoch)
      case ProcessingCompleted(result) => before.(status := SUCCESS, result := Some(result), error := None)
      case ProcessingFailed(error) => before.(status := FAILED, error := Some(error))
      case _ => before
  }

  datatype Tally = Tally(requested: nat, started: nat, completed: nat, failed: nat, takeovers: nat)

  /** Event counts; a takeover is a start logged while the log so far still says PROCESSING. */
  function Count(events: seq<Event>): Tally {
    if events == [] then Tally(0, 0, 0, 0, 0)
    else
      var earlier := events[..|events| - 1];
      var tally := Count(earlier);
      match events[|events| - 1]
      case Requested => tally.(requested := tally.requested + 1)
      case ProcessingStarted(_) =>
        tally.(started := tally.started + 1,
               takeovers := tally.takeovers + if Replay(earlier).status == PROCESSING then 1 else 0)
      case ProcessingCompleted(_) => tally.(completed := tally.completed + 1)
      case ProcessingFailed(_) => tally.(failed := tally.failed + 1)
      case _ => tally
  }

  function Visible(row: JobRow): View {
    View(row.status, row.leaseEpoch, row.result, row.error)
  }

  ghost predicate LogAgrees(job: JobState) {
    var tally := Count(job.events);
    && Replay(job.events) == Visible(job.row)
    && tally.requested == 1
    && tally.started == job.row.leaseEpoch
    && tally.completed == (if job.row.status == SUCCESS then 1 else 0)
    && job.row.leaseEpoch ==
         tally.completed + tally.failed + tally.takeovers + (if job.row.status == PROCESSING then 1 else 0)
  }

  lemma {:induction false} Append(events: seq<Event>, event: Event)
    ensures Replay(events + [event]) ==
              match event
              case ProcessingStarted(epoch) => Replay(events).(status := PROCESSING, leaseEpoch := epoch)
              case ProcessingCompleted(result) =>
                Replay(events).(status := SUCCESS, result := Some(result), error := None)
              case ProcessingFailed(error) => Replay(events).(status := FAILED, error := Some(error))
              case _ => Replay(events)
    ensures var tally := Count(events);
            Count(events + [event]) ==
              match event
              case Requested => tally.(requested := tally.requested + 1)
              case ProcessingStarted(_) =>
                tally.(started := tally.started + 1,
                       takeovers := tally.takeovers + if Replay(events).status == PROCESSING then 1 else 0)
              case ProcessingCompleted(_) => tally.(completed := tally.completed + 1)
              case ProcessingFailed(_) => tally.(failed := tally.failed + 1)
              case _ => tally
  {
    assert (events + [event])[..|events|] == events;
  }

  lemma {:induction false} StepKeepsLog(s: System, action: Action)
    requires Inv(s) && Enabled(s, action) && LogAgrees(s.job)
    ensures LogAgrees(Next(s, action).job)
  {
    if action.Do? {
      var attempt := s.attempts[action.who];
      assert AttemptOk(s.job.row, s.grants, s.computed[action.who], attempt, action.who);
      var after := JobAfter(s.job, attempt, action.move);
      if after != s.job {
        Append(s.job.events, after.events[|after.events| - 1]);
      }
    }
  }

  lemma {:induction false} RunKeepsLog(s: System, actions: seq<Action>)
    requires Inv(s) && Legal(s, actions) && LogAgrees(s.job)
    ensures LogAgrees(Exec(s, actions).job)
    decreases |actions|
  {
    if actions != [] {
      StepKeepsInv(s, actions[0]);
      StepKeepsLog(s, actions[0]);
      RunKeepsLog(Next(s, actions[0]), actions[1..]);
    }
  }

  /** After any interleaving of attempts, lost commits and commits that took effect but raised, the
      committed log replays to the row, and the counts balance. */
  lemma {:induction false} LogReplaysToRow(actions: seq<Action>)
    requires Legal(INITIAL, actions)
    ensures LogAgrees(Exec(INITIAL, actions).job)
  {
    InitialInv();
    Append([], Requested);
    assert NEW_JOB.events == [] + [Requested];
    RunKeepsLog(INITIAL, actions);
  }

  /** The takeovers counted from the log are exactly the committed claims of a row whose lease had
      expired by the claimer's own clock. */
  lemma {:induction false} TakeoversAreExpiredLeases(s: System, action: Action)
    requires Inv(s) && Enabled(s, action) && LogAgrees(s.job)
    ensures Count(Next(s, action).job.events).takeovers ==
              Count(s.job.events).takeovers +
                if Grants(s, action) && s.job.row.status == PROCESSING then 1 else 0
    ensures Grants(s, action) && s.job.row.status == PROCESSING ==>
              s.job.row.leaseExpiresAt.Some? && s.job.row.leaseExpiresAt.value < action.move.now
  {
    if action.Do? {
      var attempt := s.attempts[action.who];
      var after := JobAfter(s.job, attempt, action.move);
      if after != s.job {
        Append(s.job.events, after.events[|after.events| - 1]);
      }
    }
  }
}

/** Leases judged by clocks that are each within `skew` of real time. */
module LeaseClock {
  import opened Prelude
  import opened Domain
  import opened JobRows
  import opened Attempts
  import opened LeaseFencing

  /** `readAt[e - 1]` is the real time at which the holder of epoch `e` read its clock for the claim. */
  datatype Timed = Timed(system: System, now: int, readAt: seq<int>)

  datatype Config = Config(leaseSeconds: int, skew: nat)

  datatype Tick = Pass(span: nat) | Act(action: Action, at: int)

  predicate Within(a: int, b: int, skew: nat) {
    a - skew <= b <= a + skew
  }

  /** Clocks are read before the statement runs, and a lease is renewed after it was claimed. */
  predicate Enabled(c: Config, t: Timed, tick: Tick) {
    match tick
    case Pass(_) => true
    case Act(action, at) =>
      && LeaseFencing.Enabled(t.system, action)
      && at <= t.now
      && (action.Do? && action.move.Claim? ==>
            action.move.leaseSeconds == c.leaseSeconds && Within(at, action.move.now, c.skew))
      && (action.Renew? ==>
            && action.leaseSeconds == c.leaseSeconds && Within(at, action.now, c.skew)
            && var epoch := t.system.attempts[action.who].epoch;
               1 <= epoch <= |t.readAt| && t.readAt[epoch - 1] <= at)
  }

  function Next(c: Config, t: Timed, tick: Tick): Timed
    requires Enabled(c, t, tick)
    requires |t.system.computed| == |t.system.attempts|
  {
    match tick
    case Pass(span) => t.(now := t.now + span)
    case Act(action, at) =>
      Timed(LeaseFencing.Next(t.system, action), t.now,
            if Grants(t.system, action) then t.readAt + [at] else t.readAt)
  }

  function Margin(c: Config): int {
    c.leaseSeconds - 2 * c.skew
  }

  /** No lease is ever reported to expire earlier than its length, less one skew, after it was read. */
  ghost predicate TimedInv(c: Config, t: Timed) {
    && Inv(t.system)
    && |t.readAt| == t.system.job.row.leaseEpoch
    && (forall e :: 0 <= e < |t.readAt| ==> t.readAt[e] <= t.now)
    && (t.system.job.row.status == PROCESSING ==>
          t.readAt[|t.readAt| - 1] - c.skew + c.leaseSeconds <= t.system.job.row.leaseExpiresAt.value)
    && (forall i :: 0 <= i < |t.system.attempts| ==> Unhurried(c, t, t.system.attempts[i]))
  }

  /** An attempt that was overtaken before writing had outlived its margin. */
  predicate Unhurried(c: Config, t: Timed, attempt: Attempt) {
    Unwritten(attempt) && 1 <= attempt.epoch < t.system.job.row.leaseEpoch ==>
      attempt.epoch <= |t.readAt| && t.readAt[attempt.epoch - 1] + Margin(c) < t.now
  }

  lemma {:induction false} UnhurriedKept(c: Config, t: Timed, tick: Tick, i: nat)
    requires TimedInv(c, t) && Enabled(c, t, tick)
    requires i < |Next(c, t, tick).system.attempts|
    ensures Unhurried(c, Next(c, t, tick), Next(c, t, tick).system.attempts[i])
  {
    if i < |t.system.attempts| {
      assert Unhurried(c, t, t.system.attempts[i]);
      assert AttemptOk(t.system.job.row, t.system.grants, t.system.computed[i], t.system.attempts[i], i);
    }
  }

  lemma {:induction false} ExpiryKept(c: Config, t: Timed, tick: Tick)
    requires TimedInv(c, t) && Enabled(c, t, tick)
    ensures var u := Next(c, t, tick);
            && |u.readAt| == u.system.job.row.leaseEpoch
            && (forall e :: 0 <= e < |u.readAt| ==> u.readAt[e] <= u.now)
            && (u.system.job.row.status == PROCESSING ==>
                  && u.readAt != [] && u.system.job.row.leaseExpiresAt.Some?
                  && u.readAt[|u.readAt| - 1] - c.skew + c.leaseSeconds <= u.system.job.row.leaseExpiresAt.value)
  {
    if tick.Act? && !tick.action.Spawn? {
      var who := tick.action.who;
      assert AttemptOk(t.system.job.row, t.system.grants, t.system.computed[who], t.system.attempts[who], who);
    }
  }

  lemma {:induction false} StepKeepsTimedInv(c: Config, t: Timed, tick: Tick)
    requires TimedInv(c, t) && Enabled(c, t, tick)
    ensures TimedInv(c, Next(c, t, tick))
  {
    if tick.Act? {
      StepKeepsInv(t.system, tick.action);
    }
    ExpiryKept(c, t, tick);
    forall i | 0 <= i < |Next(c, t, tick).system.attempts|
      ensures Unhurried(c, Next(c, t, tick), Next(c, t, tick).system.attempts[i])
    {
      UnhurriedKept(c, t, tick, i);
    }
  }

  ghost predicate Legal(c: Config, t: Timed, ticks: seq<Tick>)
    decreases |ticks|
  {
    |t.system.computed| == |t.system.attempts|
    && (ticks == [] || (Enabled(c, t, ticks[0]) && Legal(c, Next(c, t, ticks[0]), ticks[1..])))
  }

  ghost function Exec(c: Config, t: Timed, ticks: seq<Tick>): Timed
    requires Legal(c, t, ticks)
    decreases |ticks|
  {
    if ticks == [] then t else Exec(c, Next(c, t, ticks[0]), ticks[1..])
  }

  lemma {:induction false} RunKeepsTimedInv(c: Config, t: Timed, ticks: seq<Tick>)
    requires TimedInv(c, t) && Legal(c, t, ticks)
    ensures TimedInv(c, Exec(c, t, ticks))
    decreases |ticks|
  {
    if ticks != [] {
      StepKeepsTimedInv(c, t, ticks[0]);
      RunKeepsTimedInv(c, Next(c, t, ticks[0]), ticks[1..]);
    }
  }

  function Start(now: int): Timed {
    Timed(INITIAL, now, [])
  }

  /** A running job is taken over only after more than the lease length less twice the skew has passed
      since its holder read the clock, measured to the moment the claimer reads its own. */
  lemma {:induction false} TakeoverOnlyAfterMargin(c: Config, start: int, ticks: seq<Tick>, tick: Tick)
    requires Legal(c, Start(start), ticks)
    requires Enabled(c, Exec(c, Start(start), ticks), tick)
    requires tick.Act? && Grants(Exec(c, Start(start), ticks).system, tick.action)
    requires Exec(c, Start(start), ticks).system.job.row.status == PROCESSING
    ensures var t := Exec(c, Start(start), ticks);
            && |t.readAt| == t.system.job.row.leaseEpoch >= 1
            && t.readAt[t.system.job.row.leaseEpoch - 1] + c.leaseSeconds - 2 * c.skew < tick.at
  {
    InitialInv();
    RunKeepsTimedInv(c, Start(start), ticks);
  }

  /** An attempt that writes its result within that margin is never fenced out. */
  lemma {:induction false} NoFalseFencing(c: Config, start: int, ticks: seq<Tick>, i: nat)
    requires Legal(c, Start(start), ticks)
    requires i < |Exec(c, Start(start), ticks).system.attempts|
    requires Exec(c, Start(start), ticks).system.attempts[i].Computed?
    ensures var t := Exec(c, Start(start), ticks);
            var attempt := t.system.attempts[i];
            && 1 <= attempt.epoch <= |t.readAt|
            && (t.now <= t.readAt[attempt.epoch - 1] + c.leaseSeconds - 2 * c.skew ==>
                  && JobAfter(t.system.job, attempt, WriteSuccess(CommitOk)).row.status == SUCCESS
                  && JobAfter(t.system.job, attempt, WriteSuccess(CommitOk)).row.result == Some(attempt.result)
                  && AttemptAfter(Some(t.system.job), attempt, WriteSuccess(CommitOk)) == Returned(true, None))
  {
    InitialInv();
    RunKeepsTimedInv(c, Start(start), ticks);
    var t := Exec(c, Start(start), ticks);
    assert AttemptOk(t.system.job.row, t.system.grants, t.system.computed[i], t.system.attempts[i], i);
    assert Unhurried(c, t, t.system.attempts[i]);
  }

  /** While a job is being processed its row names an owner and an expiry, and only then. */
  lemma {:induction false} ProcessingRowsAreLeased(c: Config, start: int, ticks: seq<Tick>)
    requires Legal(c, Start(start), ticks)
    ensures var row := Exec(c, Start(start), ticks).system.job.row;
            && (row.status == PROCESSING <==> row.leaseOwner.Some?)
            && (row.status == PROCESSING <==> row.leaseExpiresAt.Some?)
  {
    InitialInv();
    RunKeepsTimedInv(c, Start(start), ticks);
  }
}
