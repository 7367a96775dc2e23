/** Whatever has happened, a job that is neither finished nor buried can still be finished. */
module Progress {
  import opened Prelude
  import opened Domain
  import opened Headers
  import opened MessageHandler
  import opened Backoff
  import opened JobRows
  import opened Attempts
  import opened Pipeline
  import opened OutboxTable
  import P = Partition
  import Relays = OutboxRelays
  import NoLoss
  import Payloads

  /** Some legal run leads from one state to the other. */
  ghost predicate Leads(route: Route, policy: Policy, s: State, t: State) {
    exists actions :: Legal(route, policy, s, actions) && Exec(route, policy, s, actions) == t
  }

  lemma {:induction false} StandsStill(route: Route, policy: Policy, s: State)
    ensures Leads(route, policy, s, s)
  {
    var none: seq<Action> := [];
    assert Legal(route, policy, s, none) && Exec(route, policy, s, none) == s;
  }

  /** A step, and then a run. */
  lemma {:induction false} StepThen(route: Route, policy: Policy, s: State, action: Action, t: State)
    requires Enabled(route, policy, s, action) && Leads(route, policy, Next(route, policy, s, action), t)
    ensures Leads(route, policy, s, t)
  {
    hide Enabled, Next;
    var u := Next(route, policy, s, action);
    var rest :| Legal(route, policy, u, rest) && Exec(route, policy, u, rest) == t;
    var actions := [action] + rest;
    assert actions[1..] == rest;
    assert Legal(route, policy, s, actions) && Exec(route, policy, s, actions) == t;
  }

  lemma {:induction false} Step(route: Route, policy: Policy, s: State, action: Action)
    requires Enabled(route, policy, s, action)
    ensures Leads(route, policy, s, Next(route, policy, s, action))
  {
    hide Enabled, Next, Leads;
    StandsStill(route, policy, Next(route, policy, s, action));
    StepThen(route, policy, s, action, Next(route, policy, s, action));
  }

  lemma {:induction false} RunThen(route: Route, policy: Policy, s: State, actions: seq<Action>, t: State)
    requires Legal(route, policy, s, actions) && Leads(route, policy, Exec(route, policy, s, actions), t)
    ensures Leads(route, policy, s, t)
    decreases |actions|
  {
    hide Enabled, Next, Leads;
    if actions != [] {
      RunThen(route, policy, Next(route, policy, s, actions[0]), actions[1..], t);
      StepThen(route, policy, s, actions[0], t);
    }
  }

  lemma {:induction false} Then(route: Route, policy: Policy, s: State, t: State, u: State)
    requires Leads(route, policy, s, t) && Leads(route, policy, t, u)
    ensures Leads(route, policy, s, u)
  {
    hide Enabled, Next, Legal, Exec;
    var actions :| Legal(route, policy, s, actions) && Exec(route, policy, s, actions) == t;
    RunThen(route, policy, s, actions, u);
  }

  // ---------------------------------------------------------------- one record

  /** The consumer of `tp` is between iterations, not paused, and its next record is the `k`-th of the log. */
  ghost predicate Ready(route: Route, s: State, tp: TopicPartition, k: nat) {
    && NoLoss.Inv(route, s) && tp in s.parts && tp in s.phases
    && P.Placed(route, s.parts[tp])
    && s.parts[tp].batch == [] && s.parts[tp].commitOffset.None? && !s.parts[tp].paused && !s.parts[tp].inHandler
    && P.Frontier(s.parts[tp]) == k
  }

  /** Nothing but the consumer of `tp` has moved, and no log has changed. */
  ghost predicate OnlyPart(s: State, t: State, tp: TopicPartition) {
    && t.outbox == s.outbox && t.deadLetters == s.deadLetters && t.jobs.Keys == s.jobs.Keys
    && t.parts.Keys == s.parts.Keys && tp in s.parts
    && t.parts[tp].log == s.parts[tp].log
    && (forall id :: id in s.jobs && s.jobs[id].row.status == SUCCESS ==> t.jobs[id].row.status == SUCCESS)
  }

  /** The next record is taken in hand. */
  lemma {:induction false} TakeRecord(route: Route, policy: Policy, s: State, tp: TopicPartition, k: nat) returns (t: State)
    requires Ready(route, s, tp, k) && k < |s.parts[tp].log|
    ensures Leads(route, policy, s, t) && NoLoss.Inv(route, t) && OnlyPart(s, t, tp) && t.jobs == s.jobs
    ensures InHand(t, tp) && t.phases[tp] == Handling(Idle)
    ensures t.parts[tp].batch == [s.parts[tp].log[k]] && !t.parts[tp].paused && P.Frontier(t.parts[tp]) == k
  {
    var poll := Consume(tp, P.Poll(1));
    PollIsEnabled(route, policy, s, tp, k);
    var s1 := Next(route, policy, s, poll);
    NoLoss.StepKeepsInv(route, policy, s, poll);
    Step(route, policy, s, poll);
    var now := RetryDueAt(Decoded(s.parts[tp].log[k].headers));
    StartIsEnabled(route, policy, s1, tp, now);
    t := Next(route, policy, s1, Start(tp, now));
    NoLoss.StartKeeps(route, policy, s1, tp, now);
    Step(route, policy, s1, Start(tp, now));
    Then(route, policy, s, s1, t);
    StartedShape(route, policy, s1, tp, now);
    hide Leads, NoLoss.Inv, Enabled, Next, P.Placed, P.Frontier, RetryDueAt, Decoded;
  }

  lemma {:induction false} PollIsEnabled(route: Route, policy: Policy, s: State, tp: TopicPartition, k: nat)
    requires Ready(route, s, tp, k) && k < |s.parts[tp].log|
    ensures Enabled(route, policy, s, Consume(tp, P.Poll(1)))
    ensures var t := Next(route, policy, s, Consume(tp, P.Poll(1)));
            && OnlyPart(s, t, tp) && t.jobs == s.jobs && InHand(t, tp)
            && t.parts[tp].batch == [s.parts[tp].log[k]] && !t.parts[tp].inHandler && !t.parts[tp].paused
            && P.Frontier(t.parts[tp]) == k && P.Sorted(t.parts[tp].log)
            && t.parts[tp].topic == s.parts[tp].topic
  {
    hide NoLoss.Inv, P.PauseOk, P.InLogOrder, P.CursorOk, P.Before;
    P.PollKeeps(route, s.parts[tp], 1);
  }

  lemma {:induction false} StartIsEnabled(route: Route, policy: Policy, s: State, tp: TopicPartition, now: int)
    requires InHand(s, tp) && P.Sorted(s.parts[tp].log) && !s.parts[tp].inHandler
    requires RetryDueAt(Decoded(s.parts[tp].batch[0].headers)) <= now
    ensures Enabled(route, policy, s, Start(tp, now))
  {
    hide RetryDueAt, Decoded;
  }

  lemma {:induction false} StartedShape(route: Route, policy: Policy, s: State, tp: TopicPartition, now: int)
    requires Enabled(route, policy, s, Start(tp, now))
    ensures var t := Next(route, policy, s, Start(tp, now));
            && OnlyPart(s, t, tp) && t.jobs == s.jobs && InHand(t, tp)
            && t.parts[tp].batch == s.parts[tp].batch && t.parts[tp].paused == s.parts[tp].paused
            && P.Frontier(t.parts[tp]) == P.Frontier(s.parts[tp])
  {
    hide P.TooEarly, Decoded, P.Sorted, P.Before;
  }

  /** One move of the worker in hand. */
  lemma {:induction false} Moves(route: Route, policy: Policy, s: State, tp: TopicPartition, move: Move) returns (t: State)
    requires NoLoss.Inv(route, s) && InHand(s, tp) && s.phases[tp].Handling? && CanMove(s.phases[tp].attempt, move)
    requires HeadJob(s, tp) in s.jobs
    ensures Leads(route, policy, s, t) && NoLoss.Inv(route, t)
    ensures t.parts == s.parts && t.outbox == s.outbox && t.deadLetters == s.deadLetters
    ensures var job := s.jobs[HeadJob(s, tp)];
            && t.jobs == s.jobs[HeadJob(s, tp) := JobAfter(job, s.phases[tp].attempt, move)]
            && t.phases == s.phases[tp := Handling(AttemptAfter(Some(job), s.phases[tp].attempt, move))]
  {
    hide NoLoss.Inv, Leads, JobAfter, AttemptAfter, CanMove, P.Frontier, Enabled, Next;
    MoveShape(route, policy, s, tp, move);
    t := Next(route, policy, s, Work(tp, move));
    NoLoss.StepKeepsInv(route, policy, s, Work(tp, move));
    Step(route, policy, s, Work(tp, move));
  }

  lemma {:induction false} MoveShape(route: Route, policy: Policy, s: State, tp: TopicPartition, move: Move)
    requires InHand(s, tp) && s.phases[tp].Handling? && CanMove(s.phases[tp].attempt, move)
    requires HeadJob(s, tp) in s.jobs
    ensures Enabled(route, policy, s, Work(tp, move))
    ensures var t := Next(route, policy, s, Work(tp, move));
            && t.parts == s.parts && t.outbox == s.outbox && t.deadLetters == s.deadLetters
            && var job := s.jobs[HeadJob(s, tp)];
            && t.jobs == s.jobs[HeadJob(s, tp) := JobAfter(job, s.phases[tp].attempt, move)]
            && t.phases == s.phases[tp := Handling(AttemptAfter(Some(job), s.phases[tp].attempt, move))]
  {
    hide JobAfter, AttemptAfter, CanMove, P.Frontier;
  }

  /** A reading at which a claim is granted, unless the job is finished. */
  function ClaimableAt(row: JobRow): int {
    if row.leaseExpiresAt.Some? then row.leaseExpiresAt.value + 1 else 0
  }

  /** What the moves of one clean delivery do to the job and the attempt. */
  lemma {:induction false} CleanMoves(job: JobState, owner: WorkerId, result: Document)
    ensures var claim := Claim(owner, ClaimableAt(job.row), 0, CommitOk);
            if job.row.status == SUCCESS then
              && AttemptAfter(Some(job), Idle, claim) == NotGranted && JobAfter(job, Idle, claim) == job
              && AttemptAfter(Some(job), NotGranted, ReadStatus) == Returned(true, None)
              && JobAfter(job, NotGranted, ReadStatus) == job
            else
              var epoch := job.row.leaseEpoch + 1;
              && var leased := JobAfter(job, Idle, claim);
              && AttemptAfter(Some(job), Idle, claim) == Leased(owner, epoch)
              && AttemptAfter(Some(leased), Leased(owner, epoch), ProcessorReturns(result)) == Computed(owner, epoch, result)
              && JobAfter(leased, Leased(owner, epoch), ProcessorReturns(result)) == leased
              && AttemptAfter(Some(leased), Computed(owner, epoch, result), WriteSuccess(CommitOk)) == Returned(true, None)
              && JobAfter(leased, Computed(owner, epoch, result), WriteSuccess(CommitOk)).row.status == SUCCESS
  {
  }

  /** A handler that has just been entered can finish the job and acknowledge its record. */
  lemma {:induction false} Succeed(route: Route, policy: Policy, s: State, tp: TopicPartition, owner: WorkerId,
      result: Document) returns (t: State)
    requires NoLoss.Inv(route, s) && InHand(s, tp) && s.phases[tp] == Handling(Idle) && HeadJob(s, tp) in s.jobs
    ensures Leads(route, policy, s, t) && NoLoss.Inv(route, t)
    ensures t.parts == s.parts && OnlyPart(s, t, tp)
    ensures tp in t.phases && t.phases[tp] == Handling(Returned(true, None))
    ensures HeadJob(s, tp) in t.jobs && t.jobs[HeadJob(s, tp)].row.status == SUCCESS
  {
    hide NoLoss.Inv, Leads, JobAfter, AttemptAfter, P.Frontier;
    var id := HeadJob(s, tp);
    var job := s.jobs[id];
    CleanMoves(job, owner, result);
    var claimed := Moves(route, policy, s, tp, Claim(owner, ClaimableAt(job.row), 0, CommitOk));
    if job.row.status == SUCCESS {
      t := Moves(route, policy, claimed, tp, ReadStatus);
      Then(route, policy, s, claimed, t);
    } else {
      var computed := Moves(route, policy, claimed, tp, ProcessorReturns(result));
      t := Moves(route, policy, computed, tp, WriteSuccess(CommitOk));
      Then(route, policy, s, claimed, computed);
      Then(route, policy, s, computed, t);
    }
  }

  /** An acknowledged record is passed and committed. */
  lemma {:induction false} PassRecord(route: Route, policy: Policy, s: State, tp: TopicPartition) returns (t: State)
    requires NoLoss.Inv(route, s) && InHand(s, tp) && s.phases[tp] == Handling(Returned(true, None))
    requires |s.parts[tp].batch| == 1 && !s.parts[tp].paused
    ensures Leads(route, policy, s, t) && OnlyPart(s, t, tp) && t.jobs == s.jobs
    ensures Ready(route, t, tp, P.Frontier(s.parts[tp]) + 1)
  {
    hide NoLoss.Inv, Leads, Enabled, Next, P.Placed, P.Frontier;
    FinishShape(route, policy, s, tp);
    var s1 := Next(route, policy, s, Finish(tp));
    NoLoss.StepKeepsInv(route, policy, s, Finish(tp));
    Step(route, policy, s, Finish(tp));
    t := Next(route, policy, s1, Consume(tp, P.Commit));
    NoLoss.StepKeepsInv(route, policy, s1, Consume(tp, P.Commit));
    Step(route, policy, s1, Consume(tp, P.Commit));
    CommitShape(route, policy, s1, tp);
    Then(route, policy, s, s1, t);
  }

  lemma {:induction false} FinishShape(route: Route, policy: Policy, s: State, tp: TopicPartition)
    requires NoLoss.Inv(route, s) && InHand(s, tp) && s.phases[tp] == Handling(Returned(true, None))
    requires |s.parts[tp].batch| == 1 && !s.parts[tp].paused
    ensures Enabled(route, policy, s, Finish(tp))
    ensures var t := Next(route, policy, s, Finish(tp));
            && OnlyPart(s, t, tp) && t.jobs == s.jobs && tp in t.phases
            && t.parts[tp].batch == [] && !t.parts[tp].paused && !t.parts[tp].inHandler
            && P.Placed(route, t.parts[tp]) && P.Frontier(t.parts[tp]) == P.Frontier(s.parts[tp]) + 1
            && Enabled(route, policy, t, Consume(tp, P.Commit))
  {
    hide NoLoss.Inv, P.PauseOk, P.InLogOrder, P.Before, P.Sorted, P.CursorOk, P.Frontier;
    NoLoss.PlacedOf(route, s, tp);
    P.PassKeeps(route, s.parts[tp], ACKNOWLEDGED);
    P.PassMovesFrontier(s.parts[tp], ACKNOWLEDGED);
  }

  lemma {:induction false} CommitShape(route: Route, policy: Policy, s: State, tp: TopicPartition)
    requires Enabled(route, policy, s, Consume(tp, P.Commit)) && P.Placed(route, s.parts[tp]) && tp in s.phases
    ensures var t := Next(route, policy, s, Consume(tp, P.Commit));
            && OnlyPart(s, t, tp) && t.jobs == s.jobs && tp in t.phases
            && t.parts[tp].batch == [] && t.parts[tp].commitOffset.None?
            && t.parts[tp].paused == s.parts[tp].paused && t.parts[tp].inHandler == s.parts[tp].inHandler
            && P.Placed(route, t.parts[tp]) && P.Frontier(t.parts[tp]) == P.Frontier(s.parts[tp])
  {
    hide P.Before, P.PauseOk, P.InLogOrder;
    P.CommitKeeps(route, s.parts[tp]);
  }

  // ---------------------------------------------------------------- a stretch of records

  /** The next record is read, its job finished, and the record passed. */
  lemma {:induction false} Serve(route: Route, policy: Policy, s: State, tp: TopicPartition, k: nat) returns (t: State)
    requires Ready(route, s, tp, k) && k < |s.parts[tp].log|
    ensures Leads(route, policy, s, t) && OnlyPart(s, t, tp) && Ready(route, t, tp, k + 1)
    ensures var id := s.parts[tp].log[k].message.job; id in t.jobs && t.jobs[id].row.status == SUCCESS
  {
    hide NoLoss.Inv, Leads, P.Placed, P.Frontier;
    var id := s.parts[tp].log[k].message.job;
    var s1 := TakeRecord(route, policy, s, tp, k);
    NoLoss.InHandFacts(route, s1, tp);
    var s2 := Succeed(route, policy, s1, tp, WorkerId(0), 0);
    t := PassRecord(route, policy, s2, tp);
    Then(route, policy, s, s1, s2);
    Then(route, policy, s, s2, t);
  }

  lemma {:induction false} ServeUpTo(route: Route, policy: Policy, s: State, tp: TopicPartition, k: nat, index: nat)
    returns (t: State)
    requires Ready(route, s, tp, k) && k <= index < |s.parts[tp].log|
    ensures Leads(route, policy, s, t) && OnlyPart(s, t, tp) && NoLoss.Inv(route, t)
    ensures var id := s.parts[tp].log[index].message.job; id in t.jobs && t.jobs[id].row.status == SUCCESS
    decreases index - k
  {
    hide NoLoss.Inv, Leads, P.Placed, P.Frontier;
    t := Serve(route, policy, s, tp, k);
    if k < index {
      var u := ServeUpTo(route, policy, t, tp, k + 1, index);
      Then(route, policy, s, t, u);
      t := u;
    }
  }

  /** A restarted consumer is ready, at or before the record it was at. */
  lemma {:induction false} Restart(route: Route, policy: Policy, s: State, tp: TopicPartition) returns (t: State, k: nat)
    requires NoLoss.Inv(route, s) && tp in s.parts
    ensures Leads(route, policy, s, t) && OnlyPart(s, t, tp) && t.jobs == s.jobs
    ensures Ready(route, t, tp, k) && k <= P.Frontier(s.parts[tp])
  {
    hide NoLoss.Inv, Leads, Enabled, Next, P.Placed, P.Frontier;
    RestartShape(route, policy, s, tp);
    t := Next(route, policy, s, Consume(tp, P.Crash));
    NoLoss.StepKeepsInv(route, policy, s, Consume(tp, P.Crash));
    Step(route, policy, s, Consume(tp, P.Crash));
    k := P.Frontier(t.parts[tp]);
  }

  lemma {:induction false} RestartShape(route: Route, policy: Policy, s: State, tp: TopicPartition)
    requires NoLoss.Inv(route, s) && tp in s.parts
    ensures Enabled(route, policy, s, Consume(tp, P.Crash))
    ensures var t := Next(route, policy, s, Consume(tp, P.Crash));
            && OnlyPart(s, t, tp) && t.jobs == s.jobs && tp in t.phases
            && t.parts[tp].batch == [] && t.parts[tp].commitOffset.None? && !t.parts[tp].paused
            && !t.parts[tp].inHandler && P.Placed(route, t.parts[tp])
            && P.Frontier(t.parts[tp]) <= P.Frontier(s.parts[tp])
  {
    hide NoLoss.Inv, P.PauseOk, P.InLogOrder, P.Before, P.CursorOk, P.Frontier;
    NoLoss.PlacedOf(route, s, tp);
    P.RestartKeeps(route, s.parts[tp]);
  }

  /** A guarded job can be finished: restart its guardian's consumer and serve every record up to the guardian. */
  lemma {:induction false} GuardedCanSucceed(route: Route, policy: Policy, s: State, id: JobId) returns (t: State)
    requires NoLoss.Inv(route, s) && Guarded(s, id)
    ensures Leads(route, policy, s, t) && id in t.jobs && t.jobs[id].row.status == SUCCESS
  {
    hide NoLoss.Inv, Leads, P.Placed, P.Frontier;
    var place := s.guardian[id];
    var s1, k := Restart(route, policy, s, place.tp);
    t := ServeUpTo(route, policy, s1, place.tp, k, place.index);
    Then(route, policy, s, s1, t);
  }

  // ---------------------------------------------------------------- a job that only the outbox knows

  /** Relays have moved and the logs may have grown, but no job has changed and nobody was buried. */
  ghost predicate OnlyRelays(s: State, t: State) {
    && t.jobs == s.jobs && t.deadLetters == s.deadLetters && t.request == s.request
    && s.parts.Keys <= t.parts.Keys
    && |t.outbox.rows| == |s.outbox.rows|
    && forall id :: id in s.guardian ==> id in t.guardian
  }

  lemma {:induction false} RelayShape(route: Route, policy: Policy, s: State, drain: Relays.Action, to: TopicPartition)
    requires NoLoss.Inv(route, s) && Relays.Enabled(s.outbox, drain) && !drain.Insert?
    requires to in s.parts
    requires DeliveredRow(s.outbox, drain).Some? ==>
               var r := DeliveredRow(s.outbox, drain).value; r < |s.outbox.rows| && s.outbox.rows[r].topic == to.topic
    ensures var action := Relay(drain, to, P.End(s.parts[to].log));
            && Enabled(route, policy, s, action)
            && var t := Next(route, policy, s, action);
            && OnlyRelays(s, t) && t.outbox == Relays.Next(s.outbox, drain)
            && (DeliveredRow(s.outbox, drain).Some? ==>
                  s.outbox.rows[DeliveredRow(s.outbox, drain).value].message.job in t.guardian)
  {
    hide NoLoss.Inv, Relays.Enabled, Relays.Next, DeliveredRow, P.End;
    DrainsOf(route, s);
    NoLoss.OutboxLength(s.outbox, drain);
  }

  lemma {:induction false} DrainsOf(route: Route, s: State)
    requires NoLoss.Inv(route, s)
    ensures Relays.DrainsOk(s.outbox)
  {
  }

  lemma {:induction false} DoRelay(route: Route, policy: Policy, s: State, drain: Relays.Action, to: TopicPartition)
    returns (t: State)
    requires NoLoss.Inv(route, s) && Relays.Enabled(s.outbox, drain) && !drain.Insert?
    requires to in s.parts
    requires DeliveredRow(s.outbox, drain).Some? ==>
               var r := DeliveredRow(s.outbox, drain).value; r < |s.outbox.rows| && s.outbox.rows[r].topic == to.topic
    ensures Leads(route, policy, s, t) && NoLoss.Inv(route, t) && OnlyRelays(s, t)
    ensures t.outbox == Relays.Next(s.outbox, drain)
    ensures DeliveredRow(s.outbox, drain).Some? ==>
              s.outbox.rows[DeliveredRow(s.outbox, drain).value].message.job in t.guardian
  {
    hide NoLoss.Inv, Leads, Enabled, Next, Relays.Enabled, Relays.Next, DeliveredRow;
    RelayShape(route, policy, s, drain, to);
    var action := Relay(drain, to, P.End(s.parts[to].log));
    t := Next(route, policy, s, action);
    NoLoss.StepKeepsInv(route, policy, s, action);
    Step(route, policy, s, action);
  }

  /** Open drains can be rolled back, one after another. */
  lemma {:induction false} RollBack(route: Route, policy: Policy, s: State, to: TopicPartition) returns (t: State)
    requires NoLoss.Inv(route, s) && to in s.parts
    ensures Leads(route, policy, s, t) && NoLoss.Inv(route, t) && OnlyRelays(s, t)
    ensures t.outbox.drains == map[] && t.outbox.rows == s.outbox.rows
    decreases |s.outbox.drains|
  {
    hide NoLoss.Inv, Leads;
    t := s;
    if s.outbox.drains.Keys == {} {
      StandsStill(route, policy, s);
    } else {
      var relay :| relay in s.outbox.drains;
      AbortShape(route, s, relay);
      var u := DoRelay(route, policy, s, Relays.Abort(relay), to);
      FewerDrains(s.outbox.drains, relay);
      t := RollBack(route, policy, u, to);
      Then(route, policy, s, u, t);
    }
  }

  lemma {:induction false} AbortShape(route: Route, s: State, relay: Relays.RelayId)
    requires NoLoss.Inv(route, s) && relay in s.outbox.drains
    ensures Relays.Enabled(s.outbox, Relays.Abort(relay)) && DeliveredRow(s.outbox, Relays.Abort(relay)).None?
    ensures var t := Relays.Next(s.outbox, Relays.Abort(relay));
            t.drains == s.outbox.drains - {relay} && t.rows == s.outbox.rows
  {
    DrainsOf(route, s);
    hide NoLoss.Inv;
    assert Relays.DrainOk(s.outbox.rows, s.outbox.drains[relay]);
  }

  lemma {:induction false} FewerDrains(drains: map<Relays.RelayId, Relays.Drain>, relay: Relays.RelayId)
    requires relay in drains
    ensures |drains - {relay}| < |drains|
  {
    assert (drains - {relay}).Keys == drains.Keys - {relay};
    assert |drains.Keys - {relay}| < |drains.Keys|;
    assert |drains| == |drains.Keys|;
  }

  const RELAY: Relays.RelayId := 0

  /** A drain by a relay that is alone sends its batch in order, up to any row of it. */
  lemma {:induction false} SendUpTo(route: Route, policy: Policy, s: State, to: TopicPartition, j: nat) returns (t: State)
    requires NoLoss.Inv(route, s) && to in s.parts && to.topic == route.consumeTopic
    requires RELAY in s.outbox.drains && !s.outbox.drains[RELAY].failed
    requires s.outbox.drains[RELAY].sent <= j < |s.outbox.drains[RELAY].batch|
    requires s.outbox.drains[RELAY].batch[j] < |s.outbox.rows|
    ensures Leads(route, policy, s, t) && NoLoss.Inv(route, t) && OnlyRelays(s, t)
    ensures s.outbox.rows[s.outbox.drains[RELAY].batch[j]].message.job in t.guardian
    decreases j - s.outbox.drains[RELAY].sent
  {
    hide NoLoss.Inv, Leads;
    var d := s.outbox.drains[RELAY];
    SendShape(route, s, RELAY);
    var u := DoRelay(route, policy, s, Relays.Send(RELAY), to);
    if d.sent < j {
      t := SendUpTo(route, policy, u, to, j);
      Then(route, policy, s, u, t);
    } else {
      t := u;
    }
  }

  lemma {:induction false} SendShape(route: Route, s: State, relay: Relays.RelayId)
    requires NoLoss.Inv(route, s) && relay in s.outbox.drains && Relays.Sending(s.outbox.drains[relay])
    ensures Relays.Enabled(s.outbox, Relays.Send(relay))
    ensures DeliveredRow(s.outbox, Relays.Send(relay)) == Some(s.outbox.drains[relay].batch[s.outbox.drains[relay].sent])
    ensures var r := s.outbox.drains[relay].batch[s.outbox.drains[relay].sent];
            r < |s.outbox.rows| && s.outbox.rows[r].topic == route.consumeTopic
    ensures var t := Relays.Next(s.outbox, Relays.Send(relay));
            && relay in t.drains && t.rows == s.outbox.rows
            && t.drains[relay] == s.outbox.drains[relay].(sent := s.outbox.drains[relay].sent + 1)
  {
    DrainsOf(route, s);
    var r := s.outbox.drains[relay].batch[s.outbox.drains[relay].sent];
    assert Relays.DrainOk(s.outbox.rows, s.outbox.drains[relay]);
    NoLoss.QueuedOf(route, s, r);
    hide NoLoss.Inv;
  }

  /** Alone, with a limit as large as the table, a relay picks every pending row. */
  lemma {:induction false} PicksAll(rows: seq<OutboxRow>, r: nat)
    requires r < |rows| && !rows[r].published
    ensures r in FetchPending(rows, {}, |rows|)
  {
    FetchSkipsNone(rows, {}, |rows|, 0, r);
    FetchPicksTheFirst(rows, {}, |rows|, 0);
    var ids := FetchPending(rows, {}, |rows|);
    if |ids| == |rows| && forall i :: 0 <= i < |ids| ==> ids[i] < r {
      IncreasingIsLong(ids, |ids| - 1);
    }
    hide FetchFrom;
  }

  lemma {:induction false} IncreasingIsLong(ids: seq<nat>, i: nat)
    requires Increasing(ids) && i < |ids|
    ensures ids[i] >= i
  {
    if i > 0 {
      IncreasingIsLong(ids, i - 1);
    }
  }

  lemma {:induction false} BeginShape(s: Relays.State, r: nat) returns (j: nat)
    requires s.drains == map[] && r < |s.rows| && !s.rows[r].published
    ensures Relays.Enabled(s, Relays.Begin(RELAY, |s.rows|))
    ensures DeliveredRow(s, Relays.Begin(RELAY, |s.rows|)).None?
    ensures var t := Relays.Next(s, Relays.Begin(RELAY, |s.rows|));
            && t.rows == s.rows && RELAY in t.drains && !t.drains[RELAY].failed && t.drains[RELAY].sent == 0
            && j < |t.drains[RELAY].batch| && t.drains[RELAY].batch[j] == r
  {
    hide FetchFrom;
    assert Relays.Locked(s) == {};
    PicksAll(s.rows, r);
    var batch := FetchPending(s.rows, {}, |s.rows|);
    j :| 0 <= j < |batch| && batch[j] == r;
  }

  /** A job that nobody has relayed yet can be given a guardian. */
  lemma {:induction false} CanBeRelayed(route: Route, policy: Policy, s: State, id: JobId, to: TopicPartition)
    returns (t: State)
    requires NoLoss.Inv(route, s) && id in s.jobs && id !in s.guardian
    requires to in s.parts && to.topic == route.consumeTopic
    ensures Leads(route, policy, s, t) && NoLoss.Inv(route, t)
    ensures t.jobs == s.jobs && t.deadLetters == s.deadLetters && id in t.guardian
  {
    hide NoLoss.Inv, Leads, NoLoss.QueuedOk, Relays.Enabled, Relays.Next;
    RequestIsPending(route, s, id);
    var r := s.request[id];
    var s1 := RollBack(route, policy, s, to);
    var j := BeginShape(s1.outbox, r);
    var s2 := DoRelay(route, policy, s1, Relays.Begin(RELAY, |s1.outbox.rows|), to);
    t := SendUpTo(route, policy, s2, to, j);
    Then(route, policy, s, s1, s2);
    Then(route, policy, s, s2, t);
  }

  lemma {:induction false} RequestIsPending(route: Route, s: State, id: JobId)
    requires NoLoss.Inv(route, s) && id in s.jobs && id !in s.guardian
    ensures id in s.request && s.request[id] < |s.outbox.rows|
    ensures !s.outbox.rows[s.request[id]].published && s.outbox.rows[s.request[id]].message.job == id
  {
    hide NoLoss.Inv;
    NoLoss.JobOf(route, s, id);
    NoLoss.QueuedOf(route, s, s.request[id]);
  }

  /** From every state that any run of the composed system reaches, however its workers, relays and brokers have
      failed, a job that is not in the dead-letter topic has a continuation in which it succeeds. */
  lemma {:induction false} EveryJobCanStillSucceed(route: Route, policy: Policy, tps: set<TopicPartition>,
      actions: seq<Action>, s: State, id: JobId, to: TopicPartition) returns (t: State)
    requires forall tp :: tp in tps ==> tp.topic in {route.consumeTopic, route.retryTopic}
    requires Legal(route, policy, Initial(tps), actions) && s == Exec(route, policy, Initial(tps), actions)
    requires id in s.jobs && !Buried(s, id)
    requires to in tps && to.topic == route.consumeTopic
    ensures Leads(route, policy, s, t) && id in t.jobs && t.jobs[id].row.status == SUCCESS
  {
    hide NoLoss.Inv, Leads, Legal, Exec, Buried, Guarded;
    NoLoss.Reachable(route, policy, tps, actions, s);
    PartsStay(route, policy, Initial(tps), actions, to);
    if s.jobs[id].row.status == SUCCESS {
      StandsStill(route, policy, s);
      return s;
    }
    var u := s;
    if id !in s.guardian {
      u := CanBeRelayed(route, policy, s, id, to);
    } else {
      StandsStill(route, policy, s);
    }
    StillGuarded(route, u, id, s);
    t := GuardedCanSucceed(route, policy, u, id);
    Then(route, policy, s, u, t);
  }

  lemma {:induction false} StillGuarded(route: Route, s: State, id: JobId, before: State)
    requires NoLoss.Inv(route, s) && id in s.jobs && id in s.guardian && s.jobs[id].row.status != SUCCESS
    requires s.deadLetters == before.deadLetters && !Buried(before, id)
    ensures Guarded(s, id)
  {
    hide NoLoss.Inv;
    NoLoss.JobOf(route, s, id);
  }

  lemma {:induction false} PartsStay(route: Route, policy: Policy, s: State, actions: seq<Action>, tp: TopicPartition)
    requires Legal(route, policy, s, actions) && tp in s.parts
    ensures tp in Exec(route, policy, s, actions).parts
    decreases |actions|
  {
    hide Enabled, Next;
    if actions != [] {
      PartStays(route, policy, s, actions[0], tp);
      PartsStay(route, policy, Next(route, policy, s, actions[0]), actions[1..], tp);
    }
  }

  lemma {:induction false} PartStays(route: Route, policy: Policy, s: State, action: Action, tp: TopicPartition)
    requires Enabled(route, policy, s, action) && tp in s.parts
    ensures tp in Next(route, policy, s, action).parts
  {
    if action.Publish? {
      Payloads.PublishShape(route, policy, s, action);
    }
    hide P.Enabled, P.Next, P.PassedOn, P.Rewound, P.Started, P.Frontier, Relays.Enabled, Relays.Next, DeliveredRow,
         Disposition, JobAfter, AttemptAfter, CanMove, Published;
  }
}
