/** Seen from one job, every run of the whole pipeline is a run of the lease protocol. */
module Composition {
  import opened Prelude
  import opened Domain
  import opened MessageHandler
  import opened Backoff
  import opened Attempts
  import opened Pipeline
  import P = Partition
  import Relays = OutboxRelays
  import Fencing = LeaseFencing
  import EventReplay
  import NoLoss

  /** The attempt on job `id` that the consumer of `tp` is in the middle of. */
  function Acting(s: State, tp: TopicPartition, id: JobId): Option<Attempt> {
    if InHand(s, tp) && HeadJob(s, tp) == id && s.phases[tp].Handling?
       && !s.phases[tp].attempt.Returned? && !s.phases[tp].attempt.Raised?
    then Some(s.phases[tp].attempt) else None
  }

  /** `who` names, for each attempt at work, its counterpart in the lease protocol. */
  ghost predicate Mirrors(s: State, id: JobId, sys: Fencing.System, who: map<TopicPartition, nat>) {
    && Fencing.Inv(sys)
    && sys.job == (if id in s.jobs then s.jobs[id] else NEW_JOB)
    && (forall tp :: Acting(s, tp, id).Some? ==>
          && tp in who && who[tp] < |sys.attempts| && sys.attempts[who[tp]] == Acting(s, tp, id).value)
    && (forall x, y :: Acting(s, x, id).Some? && Acting(s, y, id).Some? && who[x] == who[y] ==> x == y)
    && (id !in s.jobs ==> sys == Fencing.INITIAL)
  }

  /** Nothing about the partition's batch and handler differs. */
  predicate SameHand(s: State, t: State, tp: TopicPartition) {
    && (tp in t.parts <==> tp in s.parts) && (tp in t.phases <==> tp in s.phases)
    && (tp in s.parts ==> t.parts[tp].batch == s.parts[tp].batch)
    && (tp in s.phases ==> t.phases[tp] == s.phases[tp])
  }

  lemma {:induction false} SameHandSameAttempt(s: State, t: State, tp: TopicPartition, id: JobId)
    requires SameHand(s, t, tp)
    ensures Acting(t, tp, id) == Acting(s, tp, id)
  {
  }

  /** Reading, seeking, committing, finishing and crashing end the attempt in hand and touch no other. */
  lemma {:induction false} OtherHandsOfPart(s: State, tp: TopicPartition, q: Partition, phase: Phase, x: TopicPartition)
    requires x != tp
    ensures SameHand(s, WithPart(s, tp, q, phase), x)
  {
  }

  lemma {:induction false} OtherHandsOfCreate(s: State, topic: Topic, id: JobId, body: Document, x: TopicPartition)
    ensures SameHand(s, Created(s, topic, id, body), x)
  {
    hide Relays.Next;
  }

  lemma {:induction false} OtherHandsOfRelay(s: State, drain: Relays.Action, to: TopicPartition, offset: nat,
      x: TopicPartition)
    requires Relays.Enabled(s.outbox, drain)
    requires DeliveredRow(s.outbox, drain).Some? ==>
               DeliveredRow(s.outbox, drain).value < |s.outbox.rows| && to in s.parts
    ensures SameHand(s, Relayed(s, drain, to, offset), x)
  {
    hide Relays.Enabled, Relays.Next, DeliveredRow;
  }

  lemma {:induction false} OtherHandsOfPublish(route: Route, policy: Policy, s: State, action: Action,
      x: TopicPartition)
    requires Enabled(route, policy, s, action) && action.Publish? && action.tp != x
    ensures SameHand(s, Next(route, policy, s, action), x)
  {
    hide P.Enabled, P.Next, P.Sorted, Relays.Enabled, Relays.Next, Disposition, P.Frontier;
  }

  lemma {:induction false} OtherHandsOfWork(s: State, tp: TopicPartition, move: Move, x: TopicPartition)
    requires InHand(s, tp) && s.phases[tp].Handling? && CanMove(s.phases[tp].attempt, move) && x != tp
    ensures SameHand(s, Worked(s, tp, move), x)
  {
    hide JobAfter, AttemptAfter, P.Frontier;
  }

  /** Once the attempt has returned, publishing does not make it act again. */
  lemma {:induction false} PublishEndsIt(route: Route, policy: Policy, s: State, action: Action, id: JobId)
    requires Enabled(route, policy, s, action) && action.Publish?
    ensures Acting(Next(route, policy, s, action), action.tp, id).None?
  {
    hide P.Enabled, P.Next, P.Sorted, Disposition, P.Frontier;
  }

  /** Apart from the start of a handler and the worker's own moves, a step leaves every attempt alone or ends it. */
  lemma {:induction false} ActingAfter(route: Route, policy: Policy, s: State, action: Action, tp: TopicPartition,
      id: JobId)
    requires Enabled(route, policy, s, action)
    requires action.Start? || action.Work? ==> action.tp != tp
    ensures var after := Acting(Next(route, policy, s, action), tp, id); after.None? || after == Acting(s, tp, id)
  {
    hide P.Enabled, P.Next, P.Sorted, P.PassedOn, P.Rewound, P.Started, Relays.Enabled, Relays.Next, Disposition, SameHand,
         Worked, Published, Relayed, Created, DeliveredRow;
    var t := Next(route, policy, s, action);
    if action.Create? {
      OtherHandsOfCreate(s, route.consumeTopic, action.id, action.body, tp);
      SameHandSameAttempt(s, t, tp, id);
    } else if action.Relay? {
      OtherHandsOfRelay(s, action.drain, action.to, action.offset, tp);
      SameHandSameAttempt(s, t, tp, id);
    } else if action.Publish? {
      if action.tp == tp {
        PublishEndsIt(route, policy, s, action, id);
      } else {
        OtherHandsOfPublish(route, policy, s, action, tp);
        SameHandSameAttempt(s, t, tp, id);
      }
    } else if action.Work? {
      OtherHandsOfWork(s, action.tp, action.move, tp);
      SameHandSameAttempt(s, t, tp, id);
    } else if action.tp != tp {
      OtherHandsOfPart(s, action.tp, t.parts[action.tp], t.phases[action.tp], tp);
      assert t == WithPart(s, action.tp, t.parts[action.tp], t.phases[action.tp]);
      SameHandSameAttempt(s, t, tp, id);
    }
  }

  // ---------------------------------------------------------------- simulation

  /** The step concerns the attempt on job `id`. */
  predicate Concerns(s: State, action: Action, id: JobId) {
    && (action.Start? || action.Work?)
    && InHand(s, action.tp) && HeadJob(s, action.tp) == id
  }

  /** What a step does to one job's row and log. */
  lemma {:induction false} JobThroughStep(route: Route, policy: Policy, s: State, action: Action, id: JobId)
    requires Enabled(route, policy, s, action)
    ensures var t := Next(route, policy, s, action);
            && (!(action.Work? && HeadJob(s, action.tp) == id) ==>
                  JobAt(t, id) == if action.Create? && action.id == id then Some(NEW_JOB) else JobAt(s, id))
            && (action.Work? && HeadJob(s, action.tp) == id && id in s.jobs ==>
                  JobAt(t, id) == Some(JobAfter(s.jobs[id], s.phases[action.tp].attempt, action.move)))
  {
    hide P.Enabled, P.Next, P.Sorted, P.PassedOn, P.Rewound, P.Started, P.Frontier, Relays.Enabled, Relays.Next,
         Disposition, AttemptAfter, JobAfter, CanMove;
  }

  /** A step on another job, or one that is no move of a worker, is no step of this job's protocol. */
  lemma {:induction false} QuietStepMirrors(route: Route, policy: Policy, s: State, action: Action, id: JobId,
      sys: Fencing.System, who: map<TopicPartition, nat>)
    requires NoLoss.Inv(route, s) && Enabled(route, policy, s, action) && Mirrors(s, id, sys, who)
    requires !Concerns(s, action, id)
    ensures Mirrors(Next(route, policy, s, action), id, sys, who)
  {
    hide NoLoss.Inv, Fencing.Inv, Acting, Next, Enabled, JobAfter, AttemptAfter;
    JobThroughStep(route, policy, s, action, id);
    HandOfStep(route, policy, s, action);
    var t := Next(route, policy, s, action);
    forall tp | Acting(t, tp, id).Some? ensures Acting(s, tp, id) == Acting(t, tp, id) {
      if (action.Start? || action.Work?) && action.tp == tp {
        OtherJobEnds(route, policy, s, action, id);
      } else {
        ActingAfter(route, policy, s, action, tp, id);
      }
    }
  }

  lemma {:induction false} HandOfStep(route: Route, policy: Policy, s: State, action: Action)
    requires Enabled(route, policy, s, action)
    ensures action.Start? || action.Work? ==> InHand(s, action.tp)
    ensures action.Create? ==> action.id !in s.jobs
  {
    hide P.Enabled, Relays.Enabled;
  }

  lemma {:induction false} OtherJobEnds(route: Route, policy: Policy, s: State, action: Action, id: JobId)
    requires Enabled(route, policy, s, action) && (action.Start? || action.Work?) && !Concerns(s, action, id)
    ensures Acting(Next(route, policy, s, action), action.tp, id).None?
  {
    hide P.Enabled, P.Sorted, P.Frontier, AttemptAfter, JobAfter, CanMove;
  }

  /** Entering the handler starts a new attempt. */
  lemma {:induction false} StartMirrors(route: Route, policy: Policy, s: State, tp: TopicPartition, now: int,
      id: JobId, sys: Fencing.System, who: map<TopicPartition, nat>)
    requires NoLoss.Inv(route, s) && Enabled(route, policy, s, Start(tp, now)) && Mirrors(s, id, sys, who)
    requires Concerns(s, Start(tp, now), id)
    ensures id in s.jobs
    ensures Mirrors(Next(route, policy, s, Start(tp, now)), id, Fencing.Next(sys, Fencing.Spawn),
                    who[tp := |sys.attempts|])
  {
    hide NoLoss.Inv, Fencing.Inv, Acting, Next, Enabled, P.Frontier, JobAfter, AttemptAfter;
    NoLoss.StartKeeps(route, policy, s, tp, now);
    NoLoss.HeadOrigin(route, s, tp);
    JobThroughStep(route, policy, s, Start(tp, now), id);
    SystemStep(sys, Fencing.Spawn);
    var t := Next(route, policy, s, Start(tp, now));
    StartActs(route, policy, s, tp, now, id);
    forall x | x != tp && Acting(t, x, id).Some? ensures Acting(s, x, id) == Acting(t, x, id) {
      ActingAfter(route, policy, s, Start(tp, now), x, id);
    }
  }

  lemma {:induction false} StartActs(route: Route, policy: Policy, s: State, tp: TopicPartition, now: int, id: JobId)
    requires Enabled(route, policy, s, Start(tp, now)) && InHand(s, tp) && HeadJob(s, tp) == id
    ensures Next(route, policy, s, Start(tp, now)).phases[tp] == Handling(Idle) ==>
              Acting(Next(route, policy, s, Start(tp, now)), tp, id) == Some(Idle)
  {
    hide P.Enabled, P.Sorted, P.Frontier;
  }

  lemma {:induction false} SystemStep(sys: Fencing.System, action: Fencing.Action)
    requires Fencing.Inv(sys) && Fencing.Enabled(sys, action)
    ensures Fencing.Inv(Fencing.Next(sys, action))
  {
    hide Fencing.Inv, JobAfter, AttemptAfter;
    Fencing.StepKeepsInv(sys, action);
  }

  /** A move of the worker in hand is the same move of its counterpart. */
  lemma {:induction false} WorkMirrors(route: Route, policy: Policy, s: State, tp: TopicPartition, move: Move,
      id: JobId, sys: Fencing.System, who: map<TopicPartition, nat>)
    requires NoLoss.Inv(route, s) && Enabled(route, policy, s, Work(tp, move)) && Mirrors(s, id, sys, who)
    requires Concerns(s, Work(tp, move), id)
    ensures id in s.jobs && tp in who && Fencing.Enabled(sys, Fencing.Do(who[tp], move))
    ensures Mirrors(Next(route, policy, s, Work(tp, move)), id, Fencing.Next(sys, Fencing.Do(who[tp], move)), who)
  {
    hide NoLoss.Inv, Fencing.Inv, Acting, Next, P.Frontier, Enabled, JobAfter, AttemptAfter, CanMove;
    WorkActs(route, policy, s, tp, move, id);
    NoLoss.InHandFacts(route, s, tp);
    JobThroughStep(route, policy, s, Work(tp, move), id);
    SystemStep(sys, Fencing.Do(who[tp], move));
    var t := Next(route, policy, s, Work(tp, move));
    forall x | x != tp && Acting(t, x, id).Some? ensures Acting(s, x, id) == Acting(t, x, id) {
      ActingAfter(route, policy, s, Work(tp, move), x, id);
    }
  }

  lemma {:induction false} WorkActs(route: Route, policy: Policy, s: State, tp: TopicPartition, move: Move, id: JobId)
    requires Enabled(route, policy, s, Work(tp, move)) && HeadJob(s, tp) == id
    ensures InHand(s, tp) && s.phases[tp].Handling? && s.phases[tp] != Untouched && CanMove(s.phases[tp].attempt, move)
    ensures Acting(s, tp, id) == Some(s.phases[tp].attempt)
    ensures var after := Acting(Next(route, policy, s, Work(tp, move)), tp, id);
            after.Some? ==> after.value == AttemptAfter(JobAt(s, id), s.phases[tp].attempt, move)
  {
    hide P.Frontier, AttemptAfter, JobAfter;
  }

  /** The steps of the lease protocol on job `id` that a step of the pipeline stands for, and the counterparts
      of the attempts at work after it. */
  ghost function Image(s: State, action: Action, id: JobId, who: map<TopicPartition, nat>): seq<Fencing.Action>
  {
    if !Concerns(s, action, id) then []
    else if action.Start? then [Fencing.Spawn]
    else [Fencing.Do(if action.tp in who then who[action.tp] else 0, action.move)]
  }

  ghost function Counterparts(s: State, action: Action, id: JobId, sys: Fencing.System, who: map<TopicPartition, nat>):
    map<TopicPartition, nat>
  {
    if Concerns(s, action, id) && action.Start? then who[action.tp := |sys.attempts|] else who
  }

  lemma {:induction false} StepMirrors(route: Route, policy: Policy, s: State, action: Action, id: JobId,
      sys: Fencing.System, who: map<TopicPartition, nat>)
    requires NoLoss.Inv(route, s) && Enabled(route, policy, s, action) && Mirrors(s, id, sys, who)
    ensures Fencing.Legal(sys, Image(s, action, id, who))
    ensures Mirrors(Next(route, policy, s, action), id, Fencing.Exec(sys, Image(s, action, id, who)),
                    Counterparts(s, action, id, sys, who))
  {
    hide NoLoss.Inv, Enabled, Next, Fencing.Next, Fencing.Enabled;
    Balanced(s, id, sys, who);
    if !Concerns(s, action, id) {
      QuietStepMirrors(route, policy, s, action, id, sys, who);
      return;
    }
    var step: Fencing.Action;
    if action.Start? {
      StartMirrors(route, policy, s, action.tp, action.now, id, sys, who);
      assert Fencing.Enabled(sys, Fencing.Spawn) by { SpawnIsEnabled(sys); }
      step := Fencing.Spawn;
    } else {
      WorkMirrors(route, policy, s, action.tp, action.move, id, sys, who);
      step := Fencing.Do(who[action.tp], action.move);
    }
    assert [step][1..] == [];
    Balanced(Next(route, policy, s, action), id, Fencing.Next(sys, step), Counterparts(s, action, id, sys, who));
  }

  lemma {:induction false} SpawnIsEnabled(sys: Fencing.System)
    ensures Fencing.Enabled(sys, Fencing.Spawn)
  {
  }

  lemma {:induction false} Balanced(s: State, id: JobId, sys: Fencing.System, who: map<TopicPartition, nat>)
    requires Mirrors(s, id, sys, who)
    ensures |sys.computed| == |sys.attempts|
  {
  }

  lemma {:induction false} Concatenate(sys: Fencing.System, a: seq<Fencing.Action>, b: seq<Fencing.Action>)
    requires Fencing.Legal(sys, a) && Fencing.Legal(Fencing.Exec(sys, a), b)
    ensures Fencing.Legal(sys, a + b) && Fencing.Exec(sys, a + b) == Fencing.Exec(Fencing.Exec(sys, a), b)
    decreases |a|
  {
    hide Fencing.Next, Fencing.Enabled;
    if a == [] {
      assert a + b == b;
    } else {
      Concatenate(Fencing.Next(sys, a[0]), a[1..], b);
      assert (a + b)[1..] == a[1..] + b;
    }
  }

  lemma {:induction false} RunMirrors(route: Route, policy: Policy, s: State, actions: seq<Action>, id: JobId,
      sys: Fencing.System, who: map<TopicPartition, nat>)
    returns (steps: seq<Fencing.Action>, counterparts: map<TopicPartition, nat>)
    requires NoLoss.Inv(route, s) && Legal(route, policy, s, actions) && Mirrors(s, id, sys, who)
    ensures Fencing.Legal(sys, steps)
    ensures Mirrors(Exec(route, policy, s, actions), id, Fencing.Exec(sys, steps), counterparts)
    decreases |actions|
  {
    hide NoLoss.Inv, Enabled, Next, Mirrors, Image, Counterparts, Fencing.Next, Fencing.Enabled;
    Balanced(s, id, sys, who);
    steps, counterparts := [], who;
    if actions != [] {
      var image := Image(s, actions[0], id, who);
      NoLoss.StepKeepsInv(route, policy, s, actions[0]);
      StepMirrors(route, policy, s, actions[0], id, sys, who);
      steps, counterparts := RunMirrors(route, policy, Next(route, policy, s, actions[0]), actions[1..], id,
                                        Fencing.Exec(sys, image), Counterparts(s, actions[0], id, sys, who));
      Concatenate(sys, image, steps);
      steps := image + steps;
    }
  }

  lemma {:induction false} InitialMirrors(tps: set<TopicPartition>, id: JobId)
    ensures Mirrors(Initial(tps), id, Fencing.INITIAL, map[])
  {
    hide Fencing.Inv;
    Fencing.InitialInv();
  }

  /** Refinement: for every job, a run of the whole pipeline, with its relays, partitions, crashes, retries and
      redeliveries, is a run of the lease protocol on that job's row; every attempt in hand is one of its
      attempts, and different hands are different attempts. Everything proved of the protocol's runs therefore
      holds of the job and of the attempts at work on it. */
  lemma {:induction false} EveryJobRunsTheLeaseProtocol(route: Route, policy: Policy, tps: set<TopicPartition>,
      actions: seq<Action>, id: JobId)
    returns (steps: seq<Fencing.Action>, who: map<TopicPartition, nat>)
    requires forall tp :: tp in tps ==> tp.topic in {route.consumeTopic, route.retryTopic}
    requires Legal(route, policy, Initial(tps), actions)
    ensures Fencing.Legal(Fencing.INITIAL, steps)
    ensures var s := Exec(route, policy, Initial(tps), actions);
            var sys := Fencing.Exec(Fencing.INITIAL, steps);
            && (id in s.jobs ==> s.jobs[id] == sys.job)
            && (forall tp :: Acting(s, tp, id).Some? ==>
                  && id in s.jobs && tp in who
                  && who[tp] < |sys.attempts| && sys.attempts[who[tp]] == Acting(s, tp, id).value)
            && (forall x, y :: Acting(s, x, id).Some? && Acting(s, y, id).Some? && who[x] == who[y] ==> x == y)
  {
    hide NoLoss.Inv, Enabled, Next, Legal, Exec, Acting, Fencing.Next, Fencing.Enabled, Fencing.Inv;
    NoLoss.InitialInv(route, tps);
    InitialMirrors(tps, id);
    steps, who := RunMirrors(route, policy, Initial(tps), actions, id, Fencing.INITIAL, map[]);
  }

  /** End to end, in every reachable state, no two consumers hold the same epoch of a job, and no epoch held is
      later than the row's. */
  lemma {:induction false} HandsHoldDistinctEpochs(route: Route, policy: Policy, tps: set<TopicPartition>,
      actions: seq<Action>, id: JobId, x: TopicPartition, y: TopicPartition)
    requires forall tp :: tp in tps ==> tp.topic in {route.consumeTopic, route.retryTopic}
    requires Legal(route, policy, Initial(tps), actions)
    requires var s := Exec(route, policy, Initial(tps), actions);
             && Acting(s, x, id).Some? && Acting(s, y, id).Some?
             && Holds(Acting(s, x, id).value) && Holds(Acting(s, y, id).value)
    ensures var s := Exec(route, policy, Initial(tps), actions);
            && id in s.jobs
            && 1 <= Acting(s, x, id).value.epoch <= s.jobs[id].row.leaseEpoch
            && (Acting(s, x, id).value.epoch == Acting(s, y, id).value.epoch <==> x == y)
  {
    hide Enabled, Next, Legal, Exec, Acting, Fencing.Next, Fencing.Enabled, Fencing.Legal, Fencing.Exec;
    var steps, who := EveryJobRunsTheLeaseProtocol(route, policy, tps, actions, id);
    Fencing.EachEpochGrantedOnce(steps, who[x], who[y]);
  }

  /** End to end, in every reachable state, a job's committed log replays to its row and its counts balance. */
  lemma {:induction false} EveryJobsLogReplaysToItsRow(route: Route, policy: Policy, tps: set<TopicPartition>,
      actions: seq<Action>, id: JobId)
    requires forall tp :: tp in tps ==> tp.topic in {route.consumeTopic, route.retryTopic}
    requires Legal(route, policy, Initial(tps), actions)
    requires id in Exec(route, policy, Initial(tps), actions).jobs
    ensures EventReplay.LogAgrees(Exec(route, policy, Initial(tps), actions).jobs[id])
  {
    hide Enabled, Next, Legal, Exec, Acting, Fencing.Next, Fencing.Enabled, Fencing.Legal, Fencing.Exec,
         EventReplay.LogAgrees;
    var steps, _ := EveryJobRunsTheLeaseProtocol(route, policy, tps, actions, id);
    EventReplay.LogReplaysToRow(steps);
  }
}
