/** No committed job is lost between creation and SUCCESS or the dead-letter topic. */
module NoLoss {
  import opened Prelude
  import opened Domain
  import opened Headers
  import opened Backoff
  import opened MessageHandler
  import opened JobRows
  import opened Attempts
  import opened Pipeline
  import P = Partition
  import Relays = OutboxRelays
  import Fencing = LeaseFencing

  // ---------------------------------------------------------------- invariant

  /** What may be relied on about a job, knowing how far the handler of one of its records has come.
      `guard` is the job's guardian, `here` the record in hand. An attempt that holds the current epoch is the
      guardian's; one that is about to acknowledge without having finished the job is not. */
  predicate PhaseSafe(row: JobRow, guard: Option<Place>, buried: bool, here: Place, phase: Phase) {
    match phase
    case Untouched => true
    case Done => row.leaseEpoch >= 1 && SafeWithout(row, guard, buried, here)
    case Handling(attempt) =>
      match attempt
      case Idle => true
      case Raised => true
      case NotGranted => row.leaseEpoch >= 1
      case Returned(ok, _) => row.leaseEpoch >= 1 && (ok ==> SafeWithout(row, guard, buried, here))
      case _ =>
        && 1 <= attempt.epoch <= row.leaseEpoch
        && guard.Some?
        && (attempt.epoch == row.leaseEpoch <==> guard.value == here)
        && (Unwritten(attempt) && attempt.epoch == row.leaseEpoch ==>
              row.status == PROCESSING && row.leaseOwner == Some(attempt.owner))
  }

  /** The record `here` is not needed any more. */
  predicate SafeWithout(row: JobRow, guard: Option<Place>, buried: bool, here: Place) {
    row.status == SUCCESS || buried || (guard.Some? && guard.value != here)
  }

  /** Every record is about a committed job, and its origin, named or implied, is this route's. */
  predicate RecordOk(route: Route, topic: Topic, jobs: map<JobId, JobState>, record: Record) {
    && record.message.job in jobs
    && Lookup(Decoded(record.headers), ORIGINAL_TOPIC, topic) == route.consumeTopic
  }

  ghost predicate LogOk(route: Route, topic: Topic, jobs: map<JobId, JobState>, log: seq<Record>) {
    forall i :: 0 <= i < |log| ==> RecordOk(route, topic, jobs, log[i])
  }

  ghost predicate PartOk(route: Route, s: State, tp: TopicPartition)
    requires tp in s.parts
  {
    && P.Placed(route, s.parts[tp])
    && s.parts[tp].topic == tp.topic && tp.topic in {route.consumeTopic, route.retryTopic}
    && LogOk(route, tp.topic, s.jobs, s.parts[tp].log)
  }

  ghost predicate HandOk(s: State, tp: TopicPartition)
    requires tp in s.parts
  {
    && tp in s.phases
    && (s.phases[tp].Untouched? <==> !s.parts[tp].inHandler)
    && (!s.phases[tp].Untouched? ==>
          && s.parts[tp].batch != [] && HeadJob(s, tp) in s.jobs
          && var id := HeadJob(s, tp);
             PhaseSafe(s.jobs[id].row, GuardOf(s, id), Buried(s, id), Here(s, tp), s.phases[tp]))
  }

  ghost predicate JobOk(s: State, id: JobId)
    requires id in s.jobs
  {
    && Fencing.RowOk(s.jobs[id].row)
    && id in s.request && s.request[id] < |s.outbox.rows| && s.outbox.rows[s.request[id]].message.job == id
    && (s.jobs[id].row.leaseEpoch >= 1 ==> id in s.guardian)
    && (Buried(s, id) ==> s.jobs[id].row.leaseEpoch >= 1)
    && (id in s.guardian && s.jobs[id].row.status != SUCCESS && !Buried(s, id) ==> Guarded(s, id))
  }

  /** A row that has gone out for a job nobody has claimed yet has given the job a guardian. */
  ghost predicate QueuedOk(route: Route, s: State, r: nat)
    requires r < |s.outbox.rows|
  {
    var id := s.outbox.rows[r].message.job;
    && id in s.jobs && s.outbox.rows[r].topic == route.consumeTopic
    && (s.outbox.rows[r].published || Relays.SentOpenly(s.outbox, r) ==> id in s.guardian)
  }

  ghost predicate Inv(route: Route, s: State) {
    && Relays.DrainsOk(s.outbox)
    && (forall id :: id in s.guardian ==> id in s.jobs)
    && (forall d :: d in s.deadLetters ==> d.message.job in s.jobs)
    && (forall tp :: tp in s.parts ==> PartOk(route, s, tp))
    && (forall tp :: tp in s.parts ==> HandOk(s, tp))
    && (forall id :: id in s.jobs ==> JobOk(s, id))
    && (forall r :: 0 <= r < |s.outbox.rows| ==> QueuedOk(route, s, r))
  }

  lemma {:induction false} PartOf(route: Route, s: State, tp: TopicPartition)
    requires Inv(route, s) && tp in s.parts
    ensures PartOk(route, s, tp) && HandOk(s, tp)
  {
    hide PartOk, HandOk, JobOk, QueuedOk, Relays.DrainsOk;
  }

  lemma {:induction false} JobOf(route: Route, s: State, id: JobId)
    requires Inv(route, s) && id in s.jobs
    ensures JobOk(s, id)
  {
    hide PartOk, HandOk, JobOk, QueuedOk, Relays.DrainsOk;
  }

  lemma {:induction false} QueuedOf(route: Route, s: State, r: nat)
    requires Inv(route, s) && r < |s.outbox.rows|
    ensures QueuedOk(route, s, r)
  {
    hide PartOk, HandOk, JobOk, QueuedOk, Relays.DrainsOk;
  }

  // ---------------------------------------------------------------- facts about one partition

  lemma {:induction false} HeadFacts(route: Route, s: State, tp: TopicPartition)
    requires tp in s.parts && PartOk(route, s, tp) && s.parts[tp].batch != []
    ensures var p := s.parts[tp];
            && P.Frontier(p) < |p.log| && p.batch[0] == p.log[P.Frontier(p)]
            && RecordOk(route, tp.topic, s.jobs, p.batch[0]) && p.batch[0].message.job in s.jobs
  {
    assert s.parts[tp].batch[0] == s.parts[tp].log[P.Frontier(s.parts[tp])];
  }

  /** Partition steps other than an append keep the log and never move the frontier forward, except for the
      one that disposes of the record in hand. */
  lemma {:induction false} ConsumeEffect(route: Route, policy: Policy, p: Partition, step: P.Action)
    requires P.Placed(route, p) && P.Enabled(route, p, step)
    requires step.Poll? || step.Defer? || step.Commit? || step.Resume? || step.Crash?
    ensures var q := P.Next(route, policy, p, step);
            && P.Placed(route, q) && q.log == p.log && q.topic == p.topic && !q.inHandler
            && P.Frontier(q) <= P.Frontier(p)
  {
    hide P.InLogOrder, P.PauseOk, P.TooEarly;
    match step
    case Poll(count) => P.PollKeeps(route, p, count);
    case Defer(now) => P.DeferKeeps(route, p, now);
    case Commit => P.CommitKeeps(route, p);
    case Resume(now) => ResumeEffect(route, p, now);
    case Crash => P.RestartKeeps(route, p);
  }

  lemma {:induction false} ResumeEffect(route: Route, p: Partition, now: int)
    requires P.Placed(route, p)
    ensures P.Placed(route, P.Resumed(p, now)) && P.Frontier(P.Resumed(p, now)) == P.Frontier(p)
  {
  }

  lemma {:induction false} StartEffect(route: Route, p: Partition, now: int)
    requires P.Placed(route, p) && p.batch != []
    ensures P.Placed(route, P.Started(p, now)) && P.Frontier(P.Started(p, now)) == P.Frontier(p)
  {
  }

  // ---------------------------------------------------------------- steps inside one partition

  /** `t` is `s` with the consumer of `tp` moved, its log kept and its frontier not advanced. */
  ghost predicate Reread(route: Route, s: State, t: State, tp: TopicPartition, q: Partition, phase: Phase) {
    && tp in s.parts && t == WithPart(s, tp, q, phase)
    && P.Placed(route, q) && q.log == s.parts[tp].log && q.topic == s.parts[tp].topic
    && P.Frontier(q) <= P.Frontier(s.parts[tp])
    && (phase == Untouched <==> !q.inHandler)
    && (phase != Untouched ==> phase == Handling(Idle) && q.batch != [])
  }

  lemma {:induction false} RereadKeepsGuards(route: Route, s: State, t: State, tp: TopicPartition, q: Partition,
      phase: Phase, id: JobId)
    requires Reread(route, s, t, tp, q, phase) && Guarded(s, id)
    ensures Guarded(t, id)
  {
    hide P.Placed;
  }

  lemma {:induction false} RereadKeepsPart(route: Route, s: State, t: State, tp: TopicPartition, q: Partition,
      phase: Phase, x: TopicPartition)
    requires Inv(route, s) && Reread(route, s, t, tp, q, phase) && x in t.parts
    ensures PartOk(route, t, x)
  {
    hide RecordOk, P.Placed;
    assert PartOk(route, s, x);
  }

  lemma {:induction false} RereadKeepsHand(route: Route, s: State, t: State, tp: TopicPartition, q: Partition,
      phase: Phase, x: TopicPartition)
    requires Inv(route, s) && Reread(route, s, t, tp, q, phase) && x in t.parts && PartOk(route, t, x)
    ensures HandOk(t, x)
  {
    hide RecordOk, P.Placed;
    assert HandOk(s, x);
    if x == tp && phase != Untouched {
      HeadFacts(route, t, tp);
    }
  }

  lemma {:induction false} RereadKeeps(route: Route, s: State, t: State, tp: TopicPartition, q: Partition, phase: Phase)
    requires Inv(route, s) && Reread(route, s, t, tp, q, phase)
    ensures Inv(route, t)
  {
    hide P.Placed, RecordOk, PhaseSafe, Fencing.RowOk, Relays.DrainsOk, Relays.SentOpenly;
    forall x | x in t.parts ensures PartOk(route, t, x) && HandOk(t, x) {
      RereadKeepsPart(route, s, t, tp, q, phase, x);
      RereadKeepsHand(route, s, t, tp, q, phase, x);
    }
    forall id | id in t.jobs ensures JobOk(t, id) {
      assert JobOk(s, id);
      if Guarded(s, id) {
        RereadKeepsGuards(route, s, t, tp, q, phase, id);
      }
    }
    forall r | 0 <= r < |t.outbox.rows| ensures QueuedOk(route, t, r) {
      assert QueuedOk(route, s, r);
    }
  }

  // ---------------------------------------------------------------- disposing of a record

  lemma {:induction false} FinishKeepsGuards(route: Route, s: State, t: State, tp: TopicPartition, id: JobId)
    requires tp in s.parts && PartOk(route, s, tp) && s.parts[tp].batch != []
    requires t == WithPart(s, tp, P.PassedOn(s.parts[tp], ACKNOWLEDGED), Untouched)
    requires Guarded(s, id) && s.guardian[id] != Here(s, tp)
    ensures Guarded(t, id)
  {
    P.PassMovesFrontier(s.parts[tp], ACKNOWLEDGED);
  }

  lemma {:induction false} FinishKeepsPart(route: Route, s: State, t: State, tp: TopicPartition, x: TopicPartition)
    requires Inv(route, s) && InHand(s, tp) && x in t.parts
    requires t == WithPart(s, tp, P.PassedOn(s.parts[tp], ACKNOWLEDGED), Untouched)
    ensures PartOk(route, t, x) && HandOk(t, x)
  {
    hide RecordOk, P.Placed, PhaseSafe;
    assert PartOk(route, s, x) && HandOk(s, x);
    P.PassKeeps(route, s.parts[tp], ACKNOWLEDGED);
  }

  /** The record in hand is let go only when its job is finished, buried, or guarded by another record. */
  lemma {:induction false} FinishKeepsJob(route: Route, s: State, t: State, tp: TopicPartition, id: JobId)
    requires InHand(s, tp) && s.phases[tp] != Untouched && id in s.jobs && t.jobs == s.jobs
    requires s.phases[tp].Handling? ==> s.phases[tp].attempt.Returned? && s.phases[tp].attempt.ok
    requires Inv(route, s)
    requires t == WithPart(s, tp, P.PassedOn(s.parts[tp], ACKNOWLEDGED), Untouched)
    ensures JobOk(t, id)
  {
    hide Inv, PartOk, P.PassedOn, P.Frontier, P.Enabled, Fencing.RowOk, Active;
    PartOf(route, s, tp);
    JobOf(route, s, id);
    SameBurials(s, t);
    if Guarded(s, id) {
      if s.guardian[id] != Here(s, tp) {
        FinishKeepsGuards(route, s, t, tp, id);
      } else {
        InHandFacts(route, s, tp);
        GuardedHere(route, s, tp, id);
      }
    }
  }

  /** The guardian of a job is a record about that job. */
  lemma {:induction false} GuardedHere(route: Route, s: State, tp: TopicPartition, id: JobId)
    requires Inv(route, s) && InHand(s, tp) && Guarded(s, id) && s.guardian[id] == Here(s, tp)
    ensures HeadJob(s, tp) == id
  {
    hide Inv, P.Placed, RecordOk, HandOk, P.Frontier;
    PartOf(route, s, tp);
    HeadFacts(route, s, tp);
  }

  lemma {:induction false} FinishKeeps(route: Route, policy: Policy, s: State, tp: TopicPartition)
    requires Inv(route, s) && Enabled(route, policy, s, Finish(tp))
    ensures Inv(route, Next(route, policy, s, Finish(tp)))
  {
    hide PartOk, HandOk, JobOk, P.PassedOn, P.Enabled, P.Frontier, Relays.DrainsOk, Relays.SentOpenly;
    var t := Next(route, policy, s, Finish(tp));
    forall x | x in t.parts ensures PartOk(route, t, x) && HandOk(t, x) {
      FinishKeepsPart(route, s, t, tp, x);
    }
    forall id | id in t.jobs ensures JobOk(t, id) {
      FinishKeepsJob(route, s, t, tp, id);
    }
    forall r | 0 <= r < |t.outbox.rows| ensures QueuedOk(route, t, r) {
      assert QueuedOk(route, s, r);
    }
  }

  // ---------------------------------------------------------------- moves of the worker

  function GuardAfter(row: JobRow, after: JobRow, guard: Option<Place>, here: Place): Option<Place> {
    if after.leaseEpoch == row.leaseEpoch then guard else Some(here)
  }

  lemma {:induction false} MoveKeepsRow(job: JobState, attempt: Attempt, move: Move)
    requires Fencing.RowOk(job.row) && CanMove(attempt, move)
    ensures var after := JobAfter(job, attempt, move).row;
            && Fencing.RowOk(after)
            && (job.row.status == SUCCESS ==> after == job.row)
            && (after.leaseEpoch != job.row.leaseEpoch ==> after.leaseEpoch == job.row.leaseEpoch + 1)
  {
  }

  /** The moving attempt's own promise, which is where fencing matters: a success write that is refused
      means that another record has become the guardian. */
  lemma {:induction false} MoveKeepsOwnPhase(job: JobState, guard: Option<Place>, buried: bool, here: Place,
      attempt: Attempt, move: Move)
    requires Fencing.RowOk(job.row) && CanMove(attempt, move)
    requires PhaseSafe(job.row, guard, buried, here, Handling(attempt))
    ensures var after := JobAfter(job, attempt, move).row;
            PhaseSafe(after, GuardAfter(job.row, after, guard, here), buried, here,
                      Handling(AttemptAfter(Some(job), attempt, move)))
  {
  }

  /** Whatever attempt makes the move, the promises of the attempts on the job's other records stand. */
  lemma {:induction false} MoveKeepsOtherPhase(job: JobState, guard: Option<Place>, buried: bool, here: Place,
      attempt: Attempt, move: Move, there: Place, phase: Phase)
    requires Fencing.RowOk(job.row) && CanMove(attempt, move) && there != here
    requires PhaseSafe(job.row, guard, buried, here, Handling(attempt))
    requires PhaseSafe(job.row, guard, buried, there, phase)
    ensures var after := JobAfter(job, attempt, move).row;
            PhaseSafe(after, GuardAfter(job.row, after, guard, here), buried, there, phase)
  {
  }

  lemma {:induction false} SameBurials(s: State, t: State)
    requires t.deadLetters == s.deadLetters
    ensures forall id :: Buried(t, id) == Buried(s, id)
  {
  }

  /** What the invariant says about the record in hand. */
  lemma {:induction false} InHandFacts(route: Route, s: State, tp: TopicPartition)
    requires Inv(route, s) && InHand(s, tp) && s.phases[tp] != Untouched
    ensures var id := HeadJob(s, tp);
            && id in s.jobs && Fencing.RowOk(s.jobs[id].row)
            && PhaseSafe(s.jobs[id].row, GuardOf(s, id), Buried(s, id), Here(s, tp), s.phases[tp])
            && Active(s.parts, Here(s, tp), id)
  {
    hide Inv, PhaseSafe, Fencing.RowOk, P.Placed, RecordOk, Buried;
    PartOf(route, s, tp);
    HeadFacts(route, s, tp);
    JobOf(route, s, HeadJob(s, tp));
  }

  /** `t` is `s` after one move on the job of the record in hand. */
  ghost predicate Moved(s: State, t: State, tp: TopicPartition, move: Move) {
    && InHand(s, tp) && s.phases[tp].Handling? && CanMove(s.phases[tp].attempt, move)
    && var id := HeadJob(s, tp);
    && id in s.jobs
    && t.jobs == s.jobs[id := JobAfter(s.jobs[id], s.phases[tp].attempt, move)]
    && t.phases == s.phases[tp := Handling(AttemptAfter(Some(s.jobs[id]), s.phases[tp].attempt, move))]
    && t.parts == s.parts && t.outbox == s.outbox && t.deadLetters == s.deadLetters && t.request == s.request
    && t.guardian == (if t.jobs[id].row.leaseEpoch == s.jobs[id].row.leaseEpoch then s.guardian
                      else s.guardian[id := Here(s, tp)])
  }

  lemma {:induction false} MovedHand(route: Route, s: State, t: State, tp: TopicPartition, move: Move,
      x: TopicPartition)
    requires Inv(route, s) && Moved(s, t, tp, move) && x in s.parts
    ensures HandOk(t, x)
  {
    hide Inv, JobAfter, AttemptAfter, PhaseSafe, Fencing.RowOk, CanMove, Active, Buried, P.Frontier, PartOk;
    InHandFacts(route, s, tp);
    SameBurials(s, t);
    PartOf(route, s, x);
    var id := HeadJob(s, tp);
    var attempt := s.phases[tp].attempt;
    if x == tp {
      MoveKeepsOwnPhase(s.jobs[id], GuardOf(s, id), Buried(s, id), Here(s, tp), attempt, move);
    } else if s.phases[x] != Untouched && HeadJob(s, x) == id {
      MoveKeepsOtherPhase(s.jobs[id], GuardOf(s, id), Buried(s, id), Here(s, tp), attempt, move, Here(s, x), s.phases[x]);
    }
  }

  lemma {:induction false} MovedPart(route: Route, s: State, t: State, tp: TopicPartition, move: Move,
      x: TopicPartition)
    requires Inv(route, s) && Moved(s, t, tp, move) && x in s.parts
    ensures PartOk(route, t, x)
  {
    hide JobAfter, AttemptAfter, CanMove, P.Placed, HandOk, JobOk, QueuedOk, Relays.DrainsOk;
    assert PartOk(route, s, x);
  }

  lemma {:induction false} MovedJobOk(route: Route, s: State, t: State, tp: TopicPartition, move: Move, id: JobId)
    requires Inv(route, s) && Moved(s, t, tp, move) && id in s.jobs
    ensures JobOk(t, id)
  {
    hide Inv, JobAfter, AttemptAfter, PhaseSafe, Fencing.RowOk, CanMove, Active, Buried, P.Frontier;
    InHandFacts(route, s, tp);
    SameBurials(s, t);
    JobOf(route, s, id);
    if id == HeadJob(s, tp) {
      MoveKeepsRow(s.jobs[id], s.phases[tp].attempt, move);
    }
  }

  lemma {:induction false} MovedKeeps(route: Route, s: State, t: State, tp: TopicPartition, move: Move)
    requires Inv(route, s) && Moved(s, t, tp, move)
    ensures Inv(route, t)
  {
    hide JobAfter, AttemptAfter, CanMove, PartOk, HandOk, JobOk, Relays.DrainsOk, Relays.SentOpenly;
    forall x | x in t.parts ensures PartOk(route, t, x) && HandOk(t, x) {
      MovedPart(route, s, t, tp, move, x);
      MovedHand(route, s, t, tp, move, x);
    }
    forall id | id in t.jobs ensures JobOk(t, id) {
      MovedJobOk(route, s, t, tp, move, id);
    }
    forall r | 0 <= r < |t.outbox.rows| ensures QueuedOk(route, t, r) {
      assert QueuedOk(route, s, r);
    }
  }

  lemma {:induction false} WorkKeeps(route: Route, policy: Policy, s: State, tp: TopicPartition, move: Move)
    requires Inv(route, s) && Enabled(route, policy, s, Work(tp, move))
    ensures Inv(route, Next(route, policy, s, Work(tp, move)))
  {
    hide Inv, JobAfter, AttemptAfter, PhaseSafe, Fencing.RowOk, Active, Buried, P.Frontier, Relayed, Started,
         Published, P.Next, P.Enabled, P.PassedOn, Pipeline.After, Relays.Enabled, Relays.Next, DeliveredRow;
    InHandFacts(route, s, tp);
    MovedKeeps(route, s, Worked(s, tp, move), tp, move);
  }

  // ---------------------------------------------------------------- a record arriving on a topic

  ghost predicate Appended(s: State, t: State, to: TopicPartition, record: Record) {
    && to in s.parts && P.End(s.parts[to].log) <= record.offset
    && t == s.(parts := s.parts[to := s.parts[to].(log := s.parts[to].log + [record])])
  }

  lemma {:induction false} AppendedFrontiers(route: Route, s: State, t: State, to: TopicPartition, record: Record,
      x: TopicPartition)
    requires Inv(route, s) && Appended(s, t, to, record) && x in s.parts
    ensures x in t.parts && P.Placed(route, t.parts[x]) && Here(t, x) == Here(s, x)
    ensures s.parts[x].log <= t.parts[x].log
  {
    hide Inv, HandOk, LogOk, P.CursorOk, P.InLogOrder, P.PauseOk, P.Frontier;
    PartOf(route, s, x);
    if x == to {
      P.AppendKeeps(route, s.parts[to], record);
    }
  }

  lemma {:induction false} AppendedGuards(route: Route, s: State, t: State, to: TopicPartition, record: Record,
      place: Place, id: JobId)
    requires Inv(route, s) && Appended(s, t, to, record) && Active(s.parts, place, id)
    ensures Active(t.parts, place, id)
  {
    hide Inv, P.Placed, P.Frontier;
    AppendedFrontiers(route, s, t, to, record, place.tp);
  }

  lemma {:induction false} NewRecordIsActive(route: Route, s: State, t: State, to: TopicPartition, record: Record)
    requires Inv(route, s) && Appended(s, t, to, record)
    ensures Active(t.parts, Place(to, |s.parts[to].log|), record.message.job)
  {
    hide Inv, P.Placed, P.Frontier;
    AppendedFrontiers(route, s, t, to, record, to);
    FrontierInLog(s.parts[to]);
  }

  lemma {:induction false} FrontierInLog(p: Partition)
    ensures P.Frontier(p) <= |p.log|
  {
  }

  lemma {:induction false} AppendedPart(route: Route, s: State, t: State, to: TopicPartition, record: Record,
      x: TopicPartition)
    requires Inv(route, s) && Appended(s, t, to, record) && RecordOk(route, to.topic, s.jobs, record) && x in s.parts
    ensures PartOk(route, t, x)
  {
    hide Inv, P.Placed, RecordOk, HandOk, P.Frontier;
    PartOf(route, s, x);
    AppendedFrontiers(route, s, t, to, record, x);
  }

  lemma {:induction false} AppendedHand(route: Route, s: State, t: State, to: TopicPartition, record: Record,
      x: TopicPartition)
    requires Inv(route, s) && Appended(s, t, to, record) && x in s.parts
    ensures HandOk(t, x)
  {
    hide Inv, P.Placed, PartOk, PhaseSafe, P.Frontier, Buried;
    PartOf(route, s, x);
    SameBurials(s, t);
    AppendedFrontiers(route, s, t, to, record, x);
  }

  lemma {:induction false} AppendedKeeps(route: Route, s: State, t: State, to: TopicPartition, record: Record)
    requires Inv(route, s) && Appended(s, t, to, record) && RecordOk(route, to.topic, s.jobs, record)
    ensures Inv(route, t)
  {
    hide PartOk, HandOk, Fencing.RowOk, RecordOk, Relays.DrainsOk, Relays.SentOpenly, Active, Buried;
    SameBurials(s, t);
    forall x | x in t.parts ensures PartOk(route, t, x) && HandOk(t, x) {
      AppendedPart(route, s, t, to, record, x);
      AppendedHand(route, s, t, to, record, x);
    }
    forall id | id in t.jobs ensures JobOk(t, id) {
      assert JobOk(s, id);
      if Guarded(s, id) {
        AppendedGuards(route, s, t, to, record, s.guardian[id], id);
      }
    }
    forall r | 0 <= r < |t.outbox.rows| ensures QueuedOk(route, t, r) {
      assert QueuedOk(route, s, r);
    }
  }

  // ---------------------------------------------------------------- a guardian appointed or replaced

  /** The record in hand is about to be let go after a failure: its replacement, if it was the guardian,
      takes over. */
  ghost predicate Replaced(s: State, t: State, tp: TopicPartition, phase: Phase, place: Option<Place>) {
    && InHand(s, tp) && s.phases[tp].Handling? && s.phases[tp].attempt.Returned? && !s.phases[tp].attempt.ok
    && var id := HeadJob(s, tp);
    && t == s.(phases := s.phases[tp := phase],
               guardian := if place.Some? then s.guardian[id := place.value] else s.guardian)
    && (place.Some? ==>
          && GuardOf(s, id) == Some(Here(s, tp)) && Active(s.parts, place.value, id)
          && forall x :: x in s.parts && s.parts[x].batch != [] ==> place.value != Here(s, x))
    && (phase == Handling(Raised)
        || (phase == Done && (Buried(s, id) || place.Some? || GuardOf(s, id) != Some(Here(s, tp)))))
  }

  lemma {:induction false} ReplacementKeepsPhase(row: JobRow, guard: Option<Place>, buried: bool, there: Place,
      place: Place, here: Place, phase: Phase)
    requires PhaseSafe(row, guard, buried, there, phase)
    requires guard == Some(here) && there != here && place != there
    ensures PhaseSafe(row, Some(place), buried, there, phase)
  {
  }

  lemma {:induction false} ReplacedHand(route: Route, s: State, t: State, tp: TopicPartition, phase: Phase,
      place: Option<Place>, x: TopicPartition)
    requires Inv(route, s) && Replaced(s, t, tp, phase, place) && x in s.parts
    ensures PartOk(route, t, x) && HandOk(t, x)
  {
    hide Inv, P.Placed, LogOk, Fencing.RowOk, Active, Buried, P.Frontier;
    InHandFacts(route, s, tp);
    SameBurials(s, t);
    PartOf(route, s, x);
    JobOf(route, s, HeadJob(s, tp));
    if x != tp && s.phases[x] != Untouched && HeadJob(s, x) == HeadJob(s, tp) && place.Some? {
      var id := HeadJob(s, tp);
      ReplacementKeepsPhase(s.jobs[id].row, GuardOf(s, id), Buried(s, id), Here(s, x), place.value, Here(s, tp), s.phases[x]);
    }
  }

  lemma {:induction false} ReplacedKeeps(route: Route, s: State, t: State, tp: TopicPartition, phase: Phase,
      place: Option<Place>)
    requires Inv(route, s) && Replaced(s, t, tp, phase, place)
    ensures Inv(route, t)
  {
    hide PartOk, HandOk, Fencing.RowOk, Relays.DrainsOk, Relays.SentOpenly, Active, Buried, PhaseSafe;
    InHandFacts(route, s, tp);
    SameBurials(s, t);
    forall x | x in t.parts ensures PartOk(route, t, x) && HandOk(t, x) {
      ReplacedHand(route, s, t, tp, phase, place, x);
    }
    forall id | id in t.jobs ensures JobOk(t, id) {
      assert JobOk(s, id);
    }
    forall r | 0 <= r < |t.outbox.rows| ensures QueuedOk(route, t, r) {
      assert QueuedOk(route, s, r);
    }
  }

  /** A job without a guardian is given one. */
  ghost predicate Adopted(s: State, t: State, id: JobId, place: Place) {
    && id in s.jobs && id !in s.guardian && Active(s.parts, place, id)
    && t == s.(guardian := s.guardian[id := place])
  }

  lemma {:induction false} AdoptionKeepsPhase(row: JobRow, buried: bool, there: Place, place: Place, phase: Phase)
    requires PhaseSafe(row, None, buried, there, phase)
    requires row.leaseEpoch == 0
    ensures PhaseSafe(row, Some(place), buried, there, phase)
  {
  }

  lemma {:induction false} AdoptedHand(route: Route, s: State, t: State, id: JobId, place: Place, x: TopicPartition)
    requires Inv(route, s) && Adopted(s, t, id, place) && x in s.parts
    ensures PartOk(route, t, x) && HandOk(t, x)
  {
    hide Inv, P.Placed, LogOk, PhaseSafe, Fencing.RowOk, Active, Buried, P.Frontier;
    SameBurials(s, t);
    PartOf(route, s, x);
    JobOf(route, s, id);
    if s.phases[x] != Untouched && HeadJob(s, x) == id {
      AdoptionKeepsPhase(s.jobs[id].row, Buried(s, id), Here(s, x), place, s.phases[x]);
    }
  }

  lemma {:induction false} AdoptedKeeps(route: Route, s: State, t: State, id: JobId, place: Place)
    requires Inv(route, s) && Adopted(s, t, id, place)
    ensures Inv(route, t)
  {
    hide PartOk, HandOk, Fencing.RowOk, Relays.DrainsOk, Relays.SentOpenly, Active, Buried, PhaseSafe;
    SameBurials(s, t);
    forall x | x in t.parts ensures PartOk(route, t, x) && HandOk(t, x) {
      AdoptedHand(route, s, t, id, place, x);
    }
    forall other | other in t.jobs ensures JobOk(t, other) {
      assert JobOk(s, other);
    }
    forall r | 0 <= r < |t.outbox.rows| ensures QueuedOk(route, t, r) {
      assert QueuedOk(route, s, r);
    }
  }

  // ---------------------------------------------------------------- publishing after a failure

  ghost predicate BuriedOne(s: State, t: State, d: Delivery) {
    && d.message.job in s.jobs && s.jobs[d.message.job].row.leaseEpoch >= 1
    && t == s.(deadLetters := s.deadLetters + [d])
  }

  lemma {:induction false} BurialsGrow(s: State, t: State, d: Delivery, id: JobId)
    requires BuriedOne(s, t, d)
    ensures Buried(t, id) <==> Buried(s, id) || id == d.message.job
  {
    if Buried(s, id) {
      var earlier :| earlier in s.deadLetters && earlier.message.job == id;
      assert earlier in t.deadLetters;
    }
    assert d in t.deadLetters;
  }

  lemma {:induction false} BuriedHand(route: Route, s: State, t: State, d: Delivery, x: TopicPartition)
    requires Inv(route, s) && BuriedOne(s, t, d) && x in s.parts
    ensures PartOk(route, t, x) && HandOk(t, x)
  {
    hide Inv, P.Placed, LogOk, Active, Buried, P.Frontier;
    PartOf(route, s, x);
    if s.phases[x] != Untouched {
      BurialsGrow(s, t, d, HeadJob(s, x));
    }
  }

  lemma {:induction false} BuriedKeeps(route: Route, s: State, t: State, d: Delivery)
    requires Inv(route, s) && BuriedOne(s, t, d)
    ensures Inv(route, t)
  {
    hide PartOk, HandOk, Fencing.RowOk, Relays.DrainsOk, Relays.SentOpenly, Active, Buried, PhaseSafe;
    forall x | x in t.parts ensures PartOk(route, t, x) && HandOk(t, x) {
      BuriedHand(route, s, t, d, x);
    }
    forall id | id in t.jobs ensures JobOk(t, id) {
      assert JobOk(s, id);
      BurialsGrow(s, t, d, id);
    }
    forall r | 0 <= r < |t.outbox.rows| ensures QueuedOk(route, t, r) {
      assert QueuedOk(route, s, r);
    }
  }

  /** What a failed record is turned into keeps its message, and on the retry topic keeps its origin. */
  lemma {:induction false} DispositionKeepsMessage(route: Route, policy: Policy, jobs: map<JobId, JobState>,
      d: Delivery, reason: Option<string>, now: int, offset: nat)
    requires Lookup(Decoded(d.headers), ORIGINAL_TOPIC, d.topic) == route.consumeTopic && d.message.job in jobs
    ensures var handled := Disposition(route, policy, d, false, reason, now);
            && (handled.Republished? || handled.DeadLettered?)
            && (handled.DeadLettered? ==> handled.delivery.message == d.message)
            && (handled.Republished? ==>
                  && handled.delivery.message == d.message && handled.delivery.topic == route.retryTopic
                  && RecordOk(route, route.retryTopic, jobs, P.Record(offset, handled.delivery.headers, handled.delivery.message)))
  {
    hide Millis, Delay, RetryItems, DlqItems, Encoded, Decoded, ErrorReason;
    var headers := Decoded(d.headers);
    var origin := Lookup(headers, ORIGINAL_TOPIC, d.topic);
    var count := RetryCountOf(headers);
    RetryHeadersDecode(count + 1, origin, ErrorReason(reason), now + Millis(Delay(policy, count + 1)));
  }

  lemma {:induction false} RepublishKeeps(route: Route, policy: Policy, s: State, tp: TopicPartition, now: int,
      to: TopicPartition, offset: nat, fault: SendFault, t: State)
    requires Inv(route, s) && Enabled(route, policy, s, Publish(tp, now, to, offset, fault))
    requires Pipeline.After(route, policy, s, tp, s.phases[tp].attempt.reason, now).Republished?
    requires !fault.NotDelivered? && t == Published(route, policy, s, tp, now, to, offset, fault)
    ensures Inv(route, t)
  {
    hide Inv, PhaseSafe, Fencing.RowOk, Active, Buried, P.Frontier, P.Placed, RecordOk, Disposition, Decoded,
         P.Enabled, Relays.Enabled, DeliveredRow;
    var id := HeadJob(s, tp);
    var next := Pipeline.After(route, policy, s, tp, s.phases[tp].attempt.reason, now).delivery;
    var record := P.Record(offset, next.headers, next.message);
    HeadOrigin(route, s, tp);
    DispositionKeepsMessage(route, policy, s.jobs, HeadDelivery(s, tp), s.phases[tp].attempt.reason, now, offset);
    var u := WithRecord(s, to, offset, next);
    AppendedKeeps(route, s, u, to, record);
    NewRecordIsActive(route, s, u, to, record);
    AppendedFrontiers(route, s, u, to, record, tp);
    var place := Place(to, |s.parts[to].log|);
    forall x | x in u.parts && u.parts[x].batch != []
      ensures place != Here(u, x)
    {
      AppendedFrontiers(route, s, u, to, record, x);
      HeadIsInLog(route, s, x);
    }
    ReplacedKeeps(route, u, t, tp, t.phases[tp],
                  if fault.Delivered? && GuardOf(s, id) == Some(Here(s, tp)) then Some(place) else None);
  }

  lemma {:induction false} HeadIsInLog(route: Route, s: State, x: TopicPartition)
    requires Inv(route, s) && x in s.parts && s.parts[x].batch != []
    ensures P.Frontier(s.parts[x]) < |s.parts[x].log|
  {
    hide Inv, P.Placed, P.Frontier, RecordOk, HandOk;
    PartOf(route, s, x);
    HeadFacts(route, s, x);
  }

  lemma {:induction false} HeadOrigin(route: Route, s: State, tp: TopicPartition)
    requires Inv(route, s) && InHand(s, tp)
    ensures var d := HeadDelivery(s, tp);
            && d.topic == tp.topic && d.message.job in s.jobs && d.message.job == HeadJob(s, tp)
            && Lookup(Decoded(d.headers), ORIGINAL_TOPIC, d.topic) == route.consumeTopic
            && !Foreign(route, d.topic, Decoded(d.headers))
  {
    hide Inv, P.Placed, P.Frontier, HandOk, Decoded;
    PartOf(route, s, tp);
    HeadFacts(route, s, tp);
  }

  lemma {:induction false} BuryKeeps(route: Route, policy: Policy, s: State, tp: TopicPartition, now: int,
      to: TopicPartition, offset: nat, fault: SendFault, t: State)
    requires Inv(route, s) && Enabled(route, policy, s, Publish(tp, now, to, offset, fault))
    requires Pipeline.After(route, policy, s, tp, s.phases[tp].attempt.reason, now).DeadLettered?
    requires !fault.NotDelivered? && t == Published(route, policy, s, tp, now, to, offset, fault)
    ensures Inv(route, t)
  {
    hide Inv, Fencing.RowOk, Active, Buried, P.Frontier, P.Placed, RecordOk, Disposition, Decoded,
         P.Enabled, Relays.Enabled, DeliveredRow;
    var next := Pipeline.After(route, policy, s, tp, s.phases[tp].attempt.reason, now).delivery;
    HeadOrigin(route, s, tp);
    InHandFacts(route, s, tp);
    DispositionKeepsMessage(route, policy, s.jobs, HeadDelivery(s, tp), s.phases[tp].attempt.reason, now, offset);
    var u := s.(deadLetters := s.deadLetters + [next]);
    BuriedKeeps(route, s, u, next);
    BurialsGrow(s, u, next, HeadJob(s, tp));
    ReplacedKeeps(route, u, t, tp, t.phases[tp], None);
  }

  lemma {:induction false} PublishKeeps(route: Route, policy: Policy, s: State, tp: TopicPartition, now: int,
      to: TopicPartition, offset: nat, fault: SendFault)
    requires Inv(route, s) && Enabled(route, policy, s, Publish(tp, now, to, offset, fault))
    ensures Inv(route, Next(route, policy, s, Publish(tp, now, to, offset, fault)))
  {
    hide Inv, PhaseSafe, Active, Buried, P.Frontier, P.Placed, Disposition, P.Enabled, P.Next, P.PassedOn,
         Relays.Enabled, Relays.Next, DeliveredRow, Relayed, Started, Worked, CanMove, Replaced;
    var t := Published(route, policy, s, tp, now, to, offset, fault);
    if fault.NotDelivered? {
      SilentFailure(route, s, t, tp);
    } else if Pipeline.After(route, policy, s, tp, s.phases[tp].attempt.reason, now).Republished? {
      RepublishKeeps(route, policy, s, tp, now, to, offset, fault, t);
    } else {
      BuryKeeps(route, policy, s, tp, now, to, offset, fault, t);
    }
  }

  lemma {:induction false} SilentFailure(route: Route, s: State, t: State, tp: TopicPartition)
    requires Inv(route, s) && InHand(s, tp) && s.phases[tp].Handling?
    requires s.phases[tp].attempt.Returned? && !s.phases[tp].attempt.ok
    requires t == s.(phases := s.phases[tp := Handling(Raised)])
    ensures Inv(route, t)
  {
    hide Inv;
    ReplacedKeeps(route, s, t, tp, Handling(Raised), None);
  }

  // ---------------------------------------------------------------- the outbox

  lemma {:induction false} OutboxRows(s: Relays.State, drain: Relays.Action, r: nat)
    requires Relays.DrainsOk(s) && Relays.Enabled(s, drain) && !drain.Insert? && r < |s.rows|
    ensures var t := Relays.Next(s, drain);
            && |t.rows| == |s.rows| && t.rows[r].message == s.rows[r].message && t.rows[r].topic == s.rows[r].topic
            && (t.rows[r].published || Relays.SentOpenly(t, r) ==>
                  s.rows[r].published || Relays.SentOpenly(s, r) || (drain.Send? && DeliveredRow(s, drain) == Some(r)))
  {
    var t := Relays.Next(s, drain);
    hide Relays.SentOpenly;
    match drain
    case Begin(_, _) => Relays.OpenUnchanged(s, t, r);
    case Send(relay) => Relays.OpenAfterSend(s, relay, r);
    case SendFails(_, _) => Relays.OpenUnchanged(s, t, r);
    case Commit(relay) => Relays.SettleRow(s.rows, s.drains[relay], r); Relays.OpenAfterClose(s, t, relay, r);
    case Abort(relay) => Relays.OpenAfterClose(s, t, relay, r);
  }

  lemma {:induction false} OutboxKeeps(route: Route, s: State, t: State, drain: Relays.Action)
    requires Inv(route, s) && Relays.Enabled(s.outbox, drain) && !drain.Insert?
    requires t == s.(outbox := Relays.Next(s.outbox, drain))
    requires drain.Send? ==>
               var r := DeliveredRow(s.outbox, drain).value;
               r < |s.outbox.rows| && s.outbox.rows[r].message.job in s.guardian
    ensures Inv(route, t)
  {
    hide P.Placed, LogOk, PhaseSafe, Fencing.RowOk, Relays.DrainsOk, Relays.SentOpenly, Active, Buried, P.Frontier,
         Relays.Next, Relays.Enabled, DeliveredRow;
    SameBurials(s, t);
    Relays.StepKeepsDrains(s.outbox, drain);
    forall x | x in t.parts ensures PartOk(route, t, x) && HandOk(t, x) {
      assert PartOk(route, s, x) && HandOk(s, x);
    }
    OutboxLength(s.outbox, drain);
    forall r | 0 <= r < |t.outbox.rows| ensures QueuedOk(route, t, r) {
      assert QueuedOk(route, s, r);
      OutboxRows(s.outbox, drain, r);
    }
    forall id | id in t.jobs ensures JobOk(t, id) {
      assert JobOk(s, id);
      OutboxRows(s.outbox, drain, s.request[id]);
    }
  }

  lemma {:induction false} OutboxLength(s: Relays.State, drain: Relays.Action)
    requires Relays.DrainsOk(s) && Relays.Enabled(s, drain) && !drain.Insert?
    ensures |Relays.Next(s, drain).rows| == |s.rows|
  {
  }

  lemma {:induction false} RelayKeeps(route: Route, policy: Policy, s: State, drain: Relays.Action,
      to: TopicPartition, offset: nat)
    requires Inv(route, s) && Enabled(route, policy, s, Relay(drain, to, offset))
    ensures Inv(route, Next(route, policy, s, Relay(drain, to, offset)))
  {
    hide Inv, PhaseSafe, Active, Buried, P.Frontier, P.Placed, Disposition, P.Enabled, P.Next, P.PassedOn,
         Relays.Enabled, Relays.Next, Started, Worked, CanMove, Published, Pipeline.After, DeliveredRow;
    var t := Relayed(s, drain, to, offset);
    if DeliveredRow(s.outbox, drain).None? {
      NothingSent(s.outbox, drain);
      OutboxKeeps(route, s, t, drain);
    } else {
      var r := DeliveredRow(s.outbox, drain).value;
      var message := s.outbox.rows[r].message;
      QueuedOf(route, s, r);
      var record := P.Record(offset, None, message);
      assert RecordOk(route, to.topic, s.jobs, record);
      var u := WithRecord(s, to, offset, Delivery(to.topic, None, message));
      AppendedKeeps(route, s, u, to, record);
      NewRecordIsActive(route, s, u, to, record);
      var v := if message.job in s.guardian then u
               else u.(guardian := s.guardian[message.job := Place(to, |s.parts[to].log|)]);
      if message.job !in s.guardian {
        AdoptedKeeps(route, u, v, message.job, Place(to, |s.parts[to].log|));
      }
      OutboxKeeps(route, v, t, drain);
    }
  }

  lemma {:induction false} NothingSent(s: Relays.State, drain: Relays.Action)
    requires Relays.Enabled(s, drain) && DeliveredRow(s, drain).None?
    ensures !drain.Send?
  {
  }

  // ---------------------------------------------------------------- creation

  lemma {:induction false} CreatedHand(route: Route, s: State, t: State, id: JobId, body: Document, x: TopicPartition)
    requires Inv(route, s) && id !in s.jobs && t == Created(s, route.consumeTopic, id, body) && x in s.parts
    ensures PartOk(route, t, x) && HandOk(t, x)
  {
    hide Inv, P.Placed, PhaseSafe, Active, Buried, P.Frontier, Relays.Next;
    PartOf(route, s, x);
    SameBurials(s, t);
  }

  lemma {:induction false} CreateKeeps(route: Route, policy: Policy, s: State, id: JobId, body: Document)
    requires Inv(route, s) && id !in s.jobs
    ensures Inv(route, Created(s, route.consumeTopic, id, body))
  {
    hide PartOk, HandOk, PhaseSafe, Active, Relays.DrainsOk, Relays.SentOpenly, P.Placed;
    var t := Created(s, route.consumeTopic, id, body);
    SameBurials(s, t);
    Relays.StepKeepsDrains(s.outbox, Relays.Insert(route.consumeTopic, Message(id, body)));
    forall x | x in t.parts ensures PartOk(route, t, x) && HandOk(t, x) {
      CreatedHand(route, s, t, id, body, x);
    }
    forall other | other in t.jobs ensures JobOk(t, other) {
      if other != id {
        assert JobOk(s, other);
      }
    }
    forall r | 0 <= r < |t.outbox.rows| ensures QueuedOk(route, t, r) {
      if r < |s.outbox.rows| {
        assert QueuedOk(route, s, r);
        Relays.OpenUnchanged(s.outbox, t.outbox, r);
      } else {
        Relays.NewRowUnsent(s.outbox, t.outbox);
      }
    }
  }

  // ---------------------------------------------------------------- all steps, all runs

  lemma {:induction false} ConsumeKeeps(route: Route, policy: Policy, s: State, tp: TopicPartition, step: P.Action)
    requires Inv(route, s) && Enabled(route, policy, s, Consume(tp, step))
    ensures Inv(route, Next(route, policy, s, Consume(tp, step)))
  {
    hide Inv, P.Placed, P.Frontier, P.Enabled, P.Next, Relays.Enabled, Relays.Next, Relayed, Started, Worked,
         Published, Pipeline.After, DeliveredRow, PartOk, HandOk;
    PlacedOf(route, s, tp);
    ConsumeEffect(route, policy, s.parts[tp], step);
    var q := P.Next(route, policy, s.parts[tp], step);
    RereadKeeps(route, s, WithPart(s, tp, q, Untouched), tp, q, Untouched);
  }

  lemma {:induction false} PlacedOf(route: Route, s: State, tp: TopicPartition)
    requires Inv(route, s) && tp in s.parts
    ensures P.Placed(route, s.parts[tp])
  {
    hide Inv, P.Placed, LogOk, HandOk;
    PartOf(route, s, tp);
  }

  lemma {:induction false} GiveUpKeeps(route: Route, policy: Policy, s: State, tp: TopicPartition)
    requires Inv(route, s) && Enabled(route, policy, s, GiveUp(tp))
    ensures Inv(route, Next(route, policy, s, GiveUp(tp)))
  {
    hide Inv, P.Placed, P.Frontier, P.Enabled, P.Next, Relays.Enabled, Relays.Next, Relayed, Started, Worked,
         Published, Pipeline.After, DeliveredRow, PartOk, HandOk;
    PlacedOf(route, s, tp);
    P.RewindKeeps(route, s.parts[tp]);
    var q := P.Rewound(s.parts[tp]);
    RereadKeeps(route, s, WithPart(s, tp, q, Untouched), tp, q, Untouched);
  }

  /** On its own route a worker never meets a record it would skip as another role's. */
  lemma {:induction false} StartKeeps(route: Route, policy: Policy, s: State, tp: TopicPartition, now: int)
    requires Inv(route, s) && Enabled(route, policy, s, Start(tp, now))
    ensures Next(route, policy, s, Start(tp, now)).phases[tp] == Handling(Idle)
    ensures Inv(route, Next(route, policy, s, Start(tp, now)))
  {
    hide Inv, P.Placed, P.Frontier, P.Next, P.TooEarly, Relays.Enabled, Relays.Next, Relayed, Worked,
         Published, Pipeline.After, DeliveredRow, PartOk, HandOk, Decoded;
    PlacedOf(route, s, tp);
    HeadOrigin(route, s, tp);
    StartEffect(route, s.parts[tp], now);
    var q := P.Started(s.parts[tp], now);
    RereadKeeps(route, s, WithPart(s, tp, q, Handling(Idle)), tp, q, Handling(Idle));
  }

  lemma {:induction false} StepKeepsInv(route: Route, policy: Policy, s: State, action: Action)
    requires Inv(route, s) && Enabled(route, policy, s, action)
    ensures Inv(route, Next(route, policy, s, action))
  {
    hide Inv, P.Placed, P.Frontier, P.Enabled, P.Next, P.Started, P.PassedOn, P.Rewound, Relays.Enabled, Relays.Next,
         Created, Relayed, Started, Worked, Published, Pipeline.After, DeliveredRow;
    match action
    case Create(id, body) => CreateKeeps(route, policy, s, id, body);
    case Relay(drain, to, offset) => RelayKeeps(route, policy, s, drain, to, offset);
    case Consume(tp, step) => ConsumeKeeps(route, policy, s, tp, step);
    case Start(tp, now) => StartKeeps(route, policy, s, tp, now);
    case Work(tp, move) => WorkKeeps(route, policy, s, tp, move);
    case Publish(tp, now, to, offset, fault) => PublishKeeps(route, policy, s, tp, now, to, offset, fault);
    case Finish(tp) => FinishKeeps(route, policy, s, tp);
    case GiveUp(tp) => GiveUpKeeps(route, policy, s, tp);
  }

  lemma {:induction false} RunKeepsInv(route: Route, policy: Policy, s: State, actions: seq<Action>)
    requires Inv(route, s) && Legal(route, policy, s, actions)
    ensures Inv(route, Exec(route, policy, s, actions))
    decreases |actions|
  {
    hide Inv, Enabled, Next;
    if actions != [] {
      StepKeepsInv(route, policy, s, actions[0]);
      RunKeepsInv(route, policy, Next(route, policy, s, actions[0]), actions[1..]);
    }
  }

  lemma {:induction false} InitialInv(route: Route, tps: set<TopicPartition>)
    requires forall tp :: tp in tps ==> tp.topic in {route.consumeTopic, route.retryTopic}
    ensures Inv(route, Initial(tps))
  {
    forall tp | tp in tps ensures P.Placed(route, P.Fresh(tp.topic)) {
    }
  }

  /** A record about the job that its consumer will read again even if it crashes now. */
  ghost predicate Carried(s: State, id: JobId) {
    exists tp, i :: && tp in s.parts && 0 <= i < |s.parts[tp].log|
                    && s.parts[tp].log[i].message.job == id
                    && s.parts[tp].committed <= s.parts[tp].log[i].offset
  }

  ghost predicate Queued(s: State, id: JobId) {
    exists r :: 0 <= r < |s.outbox.rows| && !s.outbox.rows[r].published && s.outbox.rows[r].message.job == id
  }

  lemma {:induction false} ActiveIsCarried(route: Route, s: State, place: Place, id: JobId)
    requires Inv(route, s) && Active(s.parts, place, id)
    ensures Carried(s, id)
  {
    hide Inv, HandOk, LogOk, P.PauseOk, P.InLogOrder;
    PartOf(route, s, place.tp);
    var p := s.parts[place.tp];
    P.BeforeSplits(p.log, P.FrontierOffset(p));
    assert p.log[place.index].message.job == id;
  }

  lemma {:induction false} Reachable(route: Route, policy: Policy, tps: set<TopicPartition>, actions: seq<Action>,
      s: State)
    requires forall tp :: tp in tps ==> tp.topic in {route.consumeTopic, route.retryTopic}
    requires Legal(route, policy, Initial(tps), actions) && s == Exec(route, policy, Initial(tps), actions)
    ensures Inv(route, s)
  {
    hide Inv, Enabled, Next;
    InitialInv(route, tps);
    RunKeepsInv(route, policy, Initial(tps), actions);
  }

  /** In every state any run reaches, with crashes, lost and half-lost commits, failed and repeated sends,
      expired leases and fenced-out workers anywhere, a committed job is finished, or in the dead-letter topic,
      or has a pending outbox row, or is carried by a record at or above its partition's committed offset. */
  lemma {:induction false} NoJobIsLost(route: Route, policy: Policy, tps: set<TopicPartition>, actions: seq<Action>,
      s: State, id: JobId)
    requires forall tp :: tp in tps ==> tp.topic in {route.consumeTopic, route.retryTopic}
    requires Legal(route, policy, Initial(tps), actions) && s == Exec(route, policy, Initial(tps), actions)
    requires id in s.jobs
    ensures s.jobs[id].row.status == SUCCESS || Buried(s, id) || Queued(s, id) || Carried(s, id)
  {
    hide Inv, Enabled, Next, Legal, Exec, Buried, Carried, P.Frontier;
    Reachable(route, policy, tps, actions, s);
    JobOf(route, s, id);
    QueuedOf(route, s, s.request[id]);
    if Guarded(s, id) {
      ActiveIsCarried(route, s, s.guardian[id], id);
    } else if s.jobs[id].row.status != SUCCESS && !Buried(s, id) {
      assert !s.outbox.rows[s.request[id]].published;
    }
  }

  /** When a worker that was fenced out acknowledges its message, the job does not depend on that message: it
      is finished or buried, or a different record that has yet to be dealt with is its guardian, and the
      guardian is the record of whichever attempt now holds the current epoch. */
  lemma {:induction false} FencedOutAckIsCovered(route: Route, policy: Policy, tps: set<TopicPartition>,
      actions: seq<Action>, s: State, tp: TopicPartition)
    requires forall x :: x in tps ==> x.topic in {route.consumeTopic, route.retryTopic}
    requires Legal(route, policy, Initial(tps), actions) && s == Exec(route, policy, Initial(tps), actions)
    requires InHand(s, tp) && s.phases[tp].Handling? && s.phases[tp].attempt.Computed?
    requires var attempt := s.phases[tp].attempt;
             HeadJob(s, tp) in s.jobs ==>
               !Admits(SuccessUpdate(attempt.owner, attempt.epoch, attempt.result), s.jobs[HeadJob(s, tp)].row)
    ensures var id := HeadJob(s, tp);
            && id in s.jobs && s.phases[tp].attempt.epoch < s.jobs[id].row.leaseEpoch
            && id in s.guardian && s.guardian[id] != Here(s, tp)
            && (s.jobs[id].row.status == SUCCESS || Buried(s, id) || Guarded(s, id))
  {
    hide Inv, Enabled, Next, Legal, Exec, Buried, P.Frontier, Active;
    Reachable(route, policy, tps, actions, s);
    InHandFacts(route, s, tp);
    JobOf(route, s, HeadJob(s, tp));
  }

  /** An attempt at work holds the job's current epoch exactly when the record it handles is the guardian. */
  lemma {:induction false} GuardianFollowsTheLease(route: Route, policy: Policy, tps: set<TopicPartition>,
      actions: seq<Action>, s: State, tp: TopicPartition)
    requires forall x :: x in tps ==> x.topic in {route.consumeTopic, route.retryTopic}
    requires Legal(route, policy, Initial(tps), actions) && s == Exec(route, policy, Initial(tps), actions)
    requires InHand(s, tp) && s.phases[tp].Handling? && Holds(s.phases[tp].attempt)
    ensures var id := HeadJob(s, tp);
            && id in s.jobs
            && (s.phases[tp].attempt.epoch == s.jobs[id].row.leaseEpoch <==> GuardOf(s, id) == Some(Here(s, tp)))
  {
    hide Inv, Enabled, Next, Legal, Exec, Buried, P.Frontier, Active;
    Reachable(route, policy, tps, actions, s);
    InHandFacts(route, s, tp);
  }
}
