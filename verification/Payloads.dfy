/** What a job is processed with is what it was created with, wherever its messages have been. */
module Payloads {
  import opened Prelude
  import opened Domain
  import opened Headers
  import opened MessageHandler
  import opened Backoff
  import opened Attempts
  import opened Pipeline
  import P = Partition
  import Relays = OutboxRelays
  import NoLoss

  /** The message is in the outbox, on some topic, or in the dead-letter topic. */
  ghost predicate Mentions(s: State, m: Message) {
    || (exists r :: 0 <= r < |s.outbox.rows| && s.outbox.rows[r].message == m)
    || (exists tp, i :: tp in s.parts && 0 <= i < |s.parts[tp].log| && s.parts[tp].log[i].message == m)
    || (exists d :: d in s.deadLetters && d.message == m)
  }

  /** No new message but the one just created. */
  ghost predicate NothingNew(s: State, t: State, added: Option<Message>) {
    forall m :: Mentions(t, m) ==> Mentions(s, m) || added == Some(m)
  }

  lemma {:induction false} OnTopic(s: State, tp: TopicPartition, i: nat)
    requires tp in s.parts && i < |s.parts[tp].log|
    ensures Mentions(s, s.parts[tp].log[i].message)
  {
  }

  /** Logs and dead letters unchanged, the same messages in the outbox. */
  lemma {:induction false} SameMessages(s: State, t: State)
    requires |t.outbox.rows| == |s.outbox.rows|
    requires forall r :: 0 <= r < |s.outbox.rows| ==> t.outbox.rows[r].message == s.outbox.rows[r].message
    requires t.parts.Keys == s.parts.Keys && forall tp :: tp in s.parts ==> t.parts[tp].log == s.parts[tp].log
    requires t.deadLetters == s.deadLetters
    ensures NothingNew(s, t, None)
  {
    forall m | Mentions(t, m) ensures Mentions(s, m) {
      if r :| 0 <= r < |t.outbox.rows| && t.outbox.rows[r].message == m {
        assert s.outbox.rows[r].message == m;
      } else if tp, i :| tp in t.parts && 0 <= i < |t.parts[tp].log| && t.parts[tp].log[i].message == m {
        OnTopic(s, tp, i);
      }
    }
  }

  /** One more record that repeats a message already about. */
  lemma {:induction false} RepeatIsNothingNew(s: State, to: TopicPartition, offset: nat, d: Delivery)
    requires to in s.parts && Mentions(s, d.message)
    ensures NothingNew(s, WithRecord(s, to, offset, d), None)
  {
    var t := WithRecord(s, to, offset, d);
    forall m | Mentions(t, m) ensures Mentions(s, m) {
      if tp, i :| tp in t.parts && 0 <= i < |t.parts[tp].log| && t.parts[tp].log[i].message == m {
        if i < |s.parts[tp].log| {
          OnTopic(s, tp, i);
        }
      }
    }
  }

  lemma {:induction false} PartKeepsMessages(s: State, tp: TopicPartition, q: Partition, phase: Phase)
    requires tp in s.parts && q.log == s.parts[tp].log
    ensures NothingNew(s, WithPart(s, tp, q, phase), None)
  {
    SameMessages(s, WithPart(s, tp, q, phase));
  }

  lemma {:induction false} CreateSaysOneThing(s: State, topic: Topic, id: JobId, body: Document)
    ensures NothingNew(s, Created(s, topic, id, body), Some(Message(id, body)))
  {
    var t := Created(s, topic, id, body);
    forall m | Mentions(t, m) ensures Mentions(s, m) || m == Message(id, body) {
      if r :| 0 <= r < |t.outbox.rows| && t.outbox.rows[r].message == m {
        if r < |s.outbox.rows| {
          assert s.outbox.rows[r].message == m;
        }
      } else if tp, i :| tp in t.parts && 0 <= i < |t.parts[tp].log| && t.parts[tp].log[i].message == m {
        OnTopic(s, tp, i);
      }
    }
  }

  lemma {:induction false} RelaySaysNothingNew(route: Route, s: State, drain: Relays.Action, to: TopicPartition, offset: nat)
    requires NoLoss.Inv(route, s) && !drain.Insert? && Relays.Enabled(s.outbox, drain)
    requires DeliveredRow(s.outbox, drain).Some? ==>
               DeliveredRow(s.outbox, drain).value < |s.outbox.rows| && to in s.parts
    ensures NothingNew(s, Relayed(s, drain, to, offset), None)
  {
    hide NoLoss.Inv, NoLoss.PartOk, NoLoss.HandOk, Relays.Next, Relays.Enabled, DeliveredRow, Mentions, NothingNew;
    DrainsOf(route, s);
    NoLoss.OutboxLength(s.outbox, drain);
    forall r | 0 <= r < |s.outbox.rows|
      ensures Relays.Next(s.outbox, drain).rows[r].message == s.outbox.rows[r].message
    {
      NoLoss.OutboxRows(s.outbox, drain, r);
    }
    var t := s.(outbox := Relays.Next(s.outbox, drain));
    SameMessages(s, t);
    if DeliveredRow(s.outbox, drain).Some? {
      var r := DeliveredRow(s.outbox, drain).value;
      InOutbox(t, r);
      var d := Delivery(to.topic, None, s.outbox.rows[r].message);
      RepeatIsNothingNew(t, to, offset, d);
      OnlyHistories(WithRecord(t, to, offset, d), Relayed(s, drain, to, offset));
      Chain(s, t, WithRecord(t, to, offset, d), None);
      Chain(s, WithRecord(t, to, offset, d), Relayed(s, drain, to, offset), None);
    }
  }

  lemma {:induction false} InOutbox(s: State, r: nat)
    requires r < |s.outbox.rows|
    ensures Mentions(s, s.outbox.rows[r].message)
  {
  }

  /** Jobs, phases and histories mention nothing. */
  lemma {:induction false} OnlyHistories(s: State, t: State)
    requires t.outbox == s.outbox && t.parts == s.parts && t.deadLetters == s.deadLetters
    ensures NothingNew(s, t, None)
  {
    SameMessages(s, t);
  }

  lemma {:induction false} Chain(s: State, t: State, u: State, added: Option<Message>)
    requires NothingNew(s, t, None) && NothingNew(t, u, added)
    ensures NothingNew(s, u, added)
  {
    hide Mentions;
  }

  lemma {:induction false} DrainsOf(route: Route, s: State)
    requires NoLoss.Inv(route, s)
    ensures Relays.DrainsOk(s.outbox)
  {
  }

  lemma {:induction false} BuryingSaysNothingNew(s: State, d: Delivery, phases: map<TopicPartition, Phase>)
    requires Mentions(s, d.message)
    ensures NothingNew(s, s.(deadLetters := s.deadLetters + [d], phases := phases), None)
  {
    var t := s.(deadLetters := s.deadLetters + [d], phases := phases);
    forall m | Mentions(t, m) ensures Mentions(s, m) {
      if tp, i :| tp in t.parts && 0 <= i < |t.parts[tp].log| && t.parts[tp].log[i].message == m {
        OnTopic(s, tp, i);
      } else if r :| 0 <= r < |t.outbox.rows| && t.outbox.rows[r].message == m {
        InOutbox(s, r);
      }
    }
  }

  /** What publishing leaves on the topics. */
  lemma {:induction false} PublishShape(route: Route, policy: Policy, s: State, action: Action)
    requires Enabled(route, policy, s, action) && action.Publish?
    ensures InHand(s, action.tp) && s.phases[action.tp].Handling? && s.phases[action.tp].attempt.Returned?
    ensures var handled := Pipeline.After(route, policy, s, action.tp, s.phases[action.tp].attempt.reason, action.now);
            var t := Next(route, policy, s, action);
            && t.outbox == s.outbox
            && (handled.Republished? || handled.DeadLettered?)
            && (if action.fault.NotDelivered? then t.parts == s.parts && t.deadLetters == s.deadLetters
                else if handled.DeadLettered? then
                  t.parts == s.parts && t.deadLetters == s.deadLetters + [handled.delivery]
                else
                  && action.to in s.parts && t.deadLetters == s.deadLetters
                  && t.parts == WithRecord(s, action.to, action.offset, handled.delivery).parts)
  {
    hide Disposition, P.Frontier;
  }

  lemma {:induction false} PublishSaysNothingNew(route: Route, policy: Policy, s: State, action: Action)
    requires NoLoss.Inv(route, s) && Enabled(route, policy, s, action) && action.Publish?
    ensures NothingNew(s, Next(route, policy, s, action), None)
  {
    hide NoLoss.Inv, Mentions, NothingNew, Pipeline.After, Enabled, Next;
    PublishShape(route, policy, s, action);
    HeadIsMentioned(route, s, action.tp);
    var handled := Pipeline.After(route, policy, s, action.tp, s.phases[action.tp].attempt.reason, action.now);
    SameMessage(route, policy, s, action.tp, s.phases[action.tp].attempt.reason, action.now);
    var t := Next(route, policy, s, action);
    var u := s;
    if action.fault.NotDelivered? {
      SayingNothing(s);
    } else if handled.DeadLettered? {
      u := s.(deadLetters := s.deadLetters + [handled.delivery], phases := s.phases);
      BuryingSaysNothingNew(s, handled.delivery, s.phases);
    } else {
      u := WithRecord(s, action.to, action.offset, handled.delivery);
      RepeatIsNothingNew(s, action.to, action.offset, handled.delivery);
    }
    OnlyHistories(u, t);
    Chain(s, u, t, None);
  }

  lemma {:induction false} SayingNothing(s: State)
    ensures NothingNew(s, s, None)
  {
    hide Mentions;
  }

  lemma {:induction false} HeadIsMentioned(route: Route, s: State, tp: TopicPartition)
    requires NoLoss.Inv(route, s) && InHand(s, tp)
    ensures Mentions(s, HeadDelivery(s, tp).message)
  {
    hide NoLoss.Inv, NoLoss.HandOk, P.Frontier, Mentions;
    NoLoss.PartOf(route, s, tp);
    NoLoss.HeadFacts(route, s, tp);
    OnTopic(s, tp, P.Frontier(s.parts[tp]));
  }

  lemma {:induction false} SameMessage(route: Route, policy: Policy, s: State, tp: TopicPartition,
      reason: Option<string>, now: int)
    requires tp in s.parts && s.parts[tp].batch != []
    ensures var handled := Pipeline.After(route, policy, s, tp, reason, now);
            handled.Republished? || handled.DeadLettered? ==> handled.delivery.message == HeadDelivery(s, tp).message
  {
    hide Decoded, Encoded, RetryItems, DlqItems, Delay;
  }

  lemma {:induction false} StepSaysNothingNew(route: Route, policy: Policy, s: State, action: Action)
    requires NoLoss.Inv(route, s) && Enabled(route, policy, s, action)
    ensures NothingNew(s, Next(route, policy, s, action),
                       if action.Create? then Some(Message(action.id, action.body)) else None)
  {
    hide NoLoss.Inv, NothingNew, P.Next, P.PassedOn, P.Rewound, P.Started, P.Frontier, Relays.Next, Relays.Enabled,
         Relayed, Published, Worked, Created, DeliveredRow, P.Enabled, P.Placed;
    var t := Next(route, policy, s, action);
    match action
    case Create(id, body) => CreateSaysOneThing(s, route.consumeTopic, id, body);
    case Relay(drain, to, offset) => RelaySaysNothingNew(route, s, drain, to, offset);
    case Publish(_, _, _, _, _) => PublishSaysNothingNew(route, policy, s, action);
    case Work(tp, move) =>
      WorkKeepsMessages(s, tp, move);
    case _ =>
      LogsStay(route, policy, s, action);
      PartKeepsMessages(s, action.tp, t.parts[action.tp], t.phases[action.tp]);
  }

  lemma {:induction false} WorkKeepsMessages(s: State, tp: TopicPartition, move: Move)
    requires InHand(s, tp) && s.phases[tp].Handling? && CanMove(s.phases[tp].attempt, move)
    ensures NothingNew(s, Worked(s, tp, move), None)
  {
    OnlyHistories(s, Worked(s, tp, move));
    hide JobAfter, AttemptAfter, Mentions, P.Frontier, NothingNew;
  }

  lemma {:induction false} LogsStay(route: Route, policy: Policy, s: State, action: Action)
    requires NoLoss.Inv(route, s) && Enabled(route, policy, s, action)
    requires action.Consume? || action.Start? || action.Finish? || action.GiveUp?
    ensures action.tp in s.parts
    ensures var t := Next(route, policy, s, action);
            && action.tp in t.parts && t.parts[action.tp].log == s.parts[action.tp].log
            && action.tp in t.phases && t == WithPart(s, action.tp, t.parts[action.tp], t.phases[action.tp])
  {
    hide NoLoss.Inv, P.Placed, P.Frontier, NoLoss.HandOk;
    NoLoss.PartOf(route, s, action.tp);
    if action.Consume? {
      NoLoss.ConsumeEffect(route, policy, s.parts[action.tp], action.step);
      hide P.Next, P.Enabled;
    }
  }

  lemma {:induction false} RunSaysNothingNew(route: Route, policy: Policy, s: State, actions: seq<Action>, m: Message)
    requires NoLoss.Inv(route, s) && Legal(route, policy, s, actions)
    requires Mentions(Exec(route, policy, s, actions), m)
    ensures Mentions(s, m) || Create(m.job, m.body) in actions
    decreases |actions|
  {
    hide NoLoss.Inv, Mentions, Enabled, Next;
    if actions != [] {
      var t := Next(route, policy, s, actions[0]);
      NoLoss.StepKeepsInv(route, policy, s, actions[0]);
      RunSaysNothingNew(route, policy, t, actions[1..], m);
      StepSaysNothingNew(route, policy, s, actions[0]);
      assert actions[1..] <= actions[1..] && forall a :: a in actions[1..] ==> a in actions;
    }
  }

  /** In every reachable state, every message in the outbox, on a topic or in the dead-letter topic carries the
      body with which its job was created, however often it was relayed, republished or dead-lettered. */
  lemma {:induction false} EveryMessageIsAsCreated(route: Route, policy: Policy, tps: set<TopicPartition>,
      actions: seq<Action>, m: Message)
    requires forall tp :: tp in tps ==> tp.topic in {route.consumeTopic, route.retryTopic}
    requires Legal(route, policy, Initial(tps), actions) && Mentions(Exec(route, policy, Initial(tps), actions), m)
    ensures Create(m.job, m.body) in actions
  {
    hide NoLoss.Inv, Enabled, Next, Legal, Exec;
    NoLoss.InitialInv(route, tps);
    RunSaysNothingNew(route, policy, Initial(tps), actions, m);
  }

  lemma {:induction false} JobsStay(route: Route, policy: Policy, s: State, action: Action, id: JobId)
    requires Enabled(route, policy, s, action) && (id in s.jobs || (action.Create? && action.id == id))
    ensures id in Next(route, policy, s, action).jobs
  {
    if action.Publish? {
      PublishKeepsJobs(route, policy, s, action);
    }
    hide P.Enabled, P.Next, P.PassedOn, P.Rewound, P.Started, P.Frontier, Relays.Enabled, Relays.Next, DeliveredRow,
         Disposition, JobAfter, AttemptAfter, CanMove, Published;
  }

  lemma {:induction false} PublishKeepsJobs(route: Route, policy: Policy, s: State, action: Action)
    requires Enabled(route, policy, s, action) && action.Publish?
    ensures Next(route, policy, s, action).jobs == s.jobs
  {
    hide Disposition, P.Frontier, Pipeline.After;
  }

  lemma {:induction false} NeverCreatedAgain(route: Route, policy: Policy, s: State, actions: seq<Action>, i: nat)
    requires Legal(route, policy, s, actions) && i < |actions| && actions[i].Create? && actions[i].id in s.jobs
    ensures false
    decreases |actions|
  {
    hide Next;
    if i > 0 {
      JobsStay(route, policy, s, actions[0], actions[i].id);
      NeverCreatedAgain(route, policy, Next(route, policy, s, actions[0]), actions[1..], i - 1);
    }
  }

  /** And a job is created only once in a run, so that body is the only one. */
  lemma {:induction false} EachJobIsCreatedOnce(route: Route, policy: Policy, s: State, actions: seq<Action>, i: nat, j: nat)
    requires Legal(route, policy, s, actions) && i < |actions| && j < |actions|
    requires actions[i].Create? && actions[j].Create? && actions[i].id == actions[j].id
    ensures i == j
    decreases |actions|
  {
    hide Next;
    if i > 0 && j > 0 {
      EachJobIsCreatedOnce(route, policy, Next(route, policy, s, actions[0]), actions[1..], i - 1, j - 1);
    } else if i != j {
      JobsStay(route, policy, s, actions[0], actions[i].id);
      NeverCreatedAgain(route, policy, Next(route, policy, s, actions[0]), actions[1..], if i > 0 then i - 1 else j - 1);
    }
  }
}
