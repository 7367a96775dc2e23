/** The whole path of a job in modes A and B: creation, outbox relays, partitions, consumers, workers. */
module Pipeline {
  import opened Prelude
  import opened Domain
  import opened Headers
  import opened Backoff
  import opened MessageHandler
  import opened JobRows
  import opened Attempts
  import P = Partition
  import Relays = OutboxRelays

  type Partition = P.Partition
  type TopicPartition = P.TopicPartition
  type Record = P.Record

  /** How far the handler has come with the first record of a partition's batch. */
  datatype Phase = Untouched | Handling(attempt: Attempt) | Done

  /** A record's permanent address: logs only grow, so an index never changes meaning. */
  datatype Place = Place(tp: TopicPartition, index: nat)

  /** Every field but the last two is state of the database, the broker or a process. `request` remembers the
      outbox row a job was created with; `guardian` remembers the record whose handling made the latest claim,
      or the retry that replaced it (before any claim: the first copy published). No step reads either. */
  datatype State = State(
    jobs: map<JobId, JobState>,
    outbox: Relays.State,
    parts: map<TopicPartition, Partition>,
    phases: map<TopicPartition, Phase>,
    deadLetters: seq<Delivery>,
    request: map<JobId, nat>,
    guardian: map<JobId, Place>)

  datatype Action =
    | Create(id: JobId, body: Document)
    | Relay(drain: Relays.Action, to: TopicPartition, offset: nat)
    | Consume(tp: TopicPartition, step: P.Action)
    | Start(tp: TopicPartition, now: int)
    | Work(tp: TopicPartition, move: Move)
    | Publish(tp: TopicPartition, now: int, to: TopicPartition, offset: nat, fault: SendFault)
    | Finish(tp: TopicPartition)
    | GiveUp(tp: TopicPartition)

  function Initial(tps: set<TopicPartition>): State {
    State(map[], Relays.INITIAL,
          map tp | tp in tps :: P.Fresh(tp.topic),
          map tp | tp in tps :: Untouched, [], map[], map[])
  }

  // ---------------------------------------------------------------- reading the state

  function JobAt(s: State, id: JobId): Option<JobState> {
    if id in s.jobs then Some(s.jobs[id]) else None
  }

  function GuardOf(s: State, id: JobId): Option<Place> {
    if id in s.guardian then Some(s.guardian[id]) else None
  }

  ghost predicate Buried(s: State, id: JobId) {
    exists d :: d in s.deadLetters && d.message.job == id
  }

  /** The record the consumer of `tp` will deal with next. */
  function Here(s: State, tp: TopicPartition): Place
    requires tp in s.parts
  {
    Place(tp, P.Frontier(s.parts[tp]))
  }

  /** A record that its consumer has yet to dispose of. */
  predicate Active(parts: map<TopicPartition, Partition>, place: Place, id: JobId) {
    && place.tp in parts
    && P.Frontier(parts[place.tp]) <= place.index < |parts[place.tp].log|
    && parts[place.tp].log[place.index].message.job == id
  }

  predicate Guarded(s: State, id: JobId) {
    id in s.guardian && Active(s.parts, s.guardian[id], id)
  }

  function HeadDelivery(s: State, tp: TopicPartition): Delivery
    requires tp in s.parts && s.parts[tp].batch != []
  {
    P.DeliveryOf(s.parts[tp].topic, s.parts[tp].batch[0])
  }

  function HeadJob(s: State, tp: TopicPartition): JobId
    requires tp in s.parts && s.parts[tp].batch != []
  {
    s.parts[tp].batch[0].message.job
  }

  // ---------------------------------------------------------------- steps

  predicate InHand(s: State, tp: TopicPartition) {
    tp in s.parts && tp in s.phases && s.parts[tp].batch != []
  }

  predicate Reaches(s: State, to: TopicPartition, topic: Topic, offset: nat) {
    to in s.parts && to.topic == topic && P.End(s.parts[to].log) <= offset
  }

  /** The outbox row a relay action delivers to its topic, if any. */
  function DeliveredRow(outbox: Relays.State, step: Relays.Action): Option<nat>
    requires Relays.Enabled(outbox, step)
  {
    match step
    case Send(relay) => Some(outbox.drains[relay].batch[outbox.drains[relay].sent])
    case SendFails(relay, delivered) =>
      if delivered then Some(outbox.drains[relay].batch[outbox.drains[relay].sent]) else None
    case _ => None
  }

  function After(route: Route, policy: Policy, s: State, tp: TopicPartition, reason: Option<string>, now: int): Handled
    requires tp in s.parts && s.parts[tp].batch != []
  {
    Disposition(route, policy, HeadDelivery(s, tp), false, reason, now)
  }

  ghost predicate Enabled(route: Route, policy: Policy, s: State, action: Action) {
    match action
    case Create(id, _) => id !in s.jobs
    case Relay(step, to, offset) =>
      && !step.Insert? && Relays.Enabled(s.outbox, step)
      && (DeliveredRow(s.outbox, step).Some? ==>
            var row := DeliveredRow(s.outbox, step).value;
            row < |s.outbox.rows| && Reaches(s, to, s.outbox.rows[row].topic, offset))
    case Consume(tp, step) =>
      && (step.Poll? || step.Defer? || step.Commit? || step.Resume? || step.Crash?)
      && tp in s.parts && P.Sorted(s.parts[tp].log) && P.Enabled(route, s.parts[tp], step)
    case Start(tp, now) =>
      InHand(s, tp) && P.Sorted(s.parts[tp].log) && P.Enabled(route, s.parts[tp], P.Start(now))
    case Work(tp, move) => InHand(s, tp) && s.phases[tp].Handling? && CanMove(s.phases[tp].attempt, move)
    case Publish(tp, now, to, offset, fault) =>
      && InHand(s, tp) && s.phases[tp].Handling? && s.phases[tp].attempt.Returned? && !s.phases[tp].attempt.ok
      && var handled := After(route, policy, s, tp, s.phases[tp].attempt.reason, now);
         (handled.Republished? && Reaches(s, to, handled.delivery.topic, offset)) || handled.DeadLettered?
    case Finish(tp) =>
      && InHand(s, tp)
      && (s.phases[tp].Done? ||
          (s.phases[tp].Handling? && s.phases[tp].attempt.Returned? && s.phases[tp].attempt.ok))
    case GiveUp(tp) => InHand(s, tp) && s.phases[tp].Handling? && s.phases[tp].attempt.Raised?
  }

  function WithPart(s: State, tp: TopicPartition, p: Partition, phase: Phase): State {
    s.(parts := s.parts[tp := p], phases := s.phases[tp := phase])
  }

  /** One more record at the end of a log. */
  function WithRecord(s: State, to: TopicPartition, offset: nat, d: Delivery): State
    requires to in s.parts
  {
    s.(parts := s.parts[to := s.parts[to].(log := s.parts[to].log + [P.Record(offset, d.headers, d.message)])])
  }

  function Created(s: State, topic: Topic, id: JobId, body: Document): State {
    s.(jobs := s.jobs[id := NEW_JOB],
       outbox := Relays.Next(s.outbox, Relays.Insert(topic, Message(id, body))),
       request := s.request[id := |s.outbox.rows|])
  }

  function Relayed(s: State, step: Relays.Action, to: TopicPartition, offset: nat): State
    requires Relays.Enabled(s.outbox, step)
    requires DeliveredRow(s.outbox, step).Some? ==> DeliveredRow(s.outbox, step).value < |s.outbox.rows| && to in s.parts
  {
    var t := s.(outbox := Relays.Next(s.outbox, step));
    match DeliveredRow(s.outbox, step)
    case None => t
    case Some(r) =>
      var message := s.outbox.rows[r].message;
      var u := WithRecord(t, to, offset, Delivery(to.topic, None, message));
      if message.job in s.guardian then u
      else u.(guardian := s.guardian[message.job := Place(to, |s.parts[to].log|)])
  }

  /** The handler is entered; a foreign retry is let through untouched. */
  function Started(route: Route, s: State, tp: TopicPartition, now: int): State
    requires InHand(s, tp)
  {
    WithPart(s, tp, P.Started(s.parts[tp], now),
             if Foreign(route, tp.topic, Decoded(s.parts[tp].batch[0].headers)) then Done else Handling(Idle))
  }

  /** One move of the worker on the job of the record in hand. A committed claim makes this record the guardian. */
  function Worked(s: State, tp: TopicPartition, move: Move): State
    requires InHand(s, tp) && s.phases[tp].Handling? && CanMove(s.phases[tp].attempt, move)
  {
    var id := HeadJob(s, tp);
    var t := s.(phases := s.phases[tp := Handling(AttemptAfter(JobAt(s, id), s.phases[tp].attempt, move))]);
    if id !in s.jobs then t
    else
      var after := JobAfter(s.jobs[id], s.phases[tp].attempt, move);
      var u := t.(jobs := s.jobs[id := after]);
      if after.row.leaseEpoch == s.jobs[id].row.leaseEpoch then u
      else u.(guardian := s.guardian[id := Here(s, tp)])
  }

  /** After a failure the record is republished or dead-lettered; the replacement takes over as guardian. */
  function Published(route: Route, policy: Policy, s: State, tp: TopicPartition, now: int,
                     to: TopicPartition, offset: nat, fault: SendFault): State
    requires InHand(s, tp) && s.phases[tp].Handling? && s.phases[tp].attempt.Returned?
    requires var handled := After(route, policy, s, tp, s.phases[tp].attempt.reason, now);
             handled.DeadLettered? || (handled.Republished? && to in s.parts)
  {
    var handled := After(route, policy, s, tp, s.phases[tp].attempt.reason, now);
    var id := HeadJob(s, tp);
    var t := s.(phases := s.phases[tp := if fault.Delivered? then Done else Handling(Raised)]);
    if fault.NotDelivered? then t
    else if handled.DeadLettered? then t.(deadLetters := s.deadLetters + [handled.delivery])
    else
      var u := WithRecord(t, to, offset, handled.delivery);
      if fault.Delivered? && GuardOf(s, id) == Some(Here(s, tp))
      then u.(guardian := s.guardian[id := Place(to, |s.parts[to].log|)]) else u
  }

  const ACKNOWLEDGED := Encounter(Reply(true, None), 0, Delivered)

  ghost function Next(route: Route, policy: Policy, s: State, action: Action): State
    requires Enabled(route, policy, s, action)
  {
    match action
    case Create(id, body) => Created(s, route.consumeTopic, id, body)
    case Relay(step, to, offset) => Relayed(s, step, to, offset)
    case Consume(tp, step) => WithPart(s, tp, P.Next(route, policy, s.parts[tp], step), Untouched)
    case Start(tp, now) => Started(route, s, tp, now)
    case Work(tp, move) => Worked(s, tp, move)
    case Publish(tp, now, to, offset, fault) => Published(route, policy, s, tp, now, to, offset, fault)
    case Finish(tp) => WithPart(s, tp, P.PassedOn(s.parts[tp], ACKNOWLEDGED), Untouched)
    case GiveUp(tp) => WithPart(s, tp, P.Rewound(s.parts[tp]), Untouched)
  }

  ghost predicate Legal(route: Route, policy: Policy, s: State, actions: seq<Action>)
    decreases |actions|
  {
    actions == []
    || (Enabled(route, policy, s, actions[0]) && Legal(route, policy, Next(route, policy, s, actions[0]), actions[1..]))
  }

  ghost function Exec(route: Route, policy: Policy, s: State, actions: seq<Action>): State
    requires Legal(route, policy, s, actions)
    decreases |actions|
  {
    if actions == [] then s else Exec(route, policy, Next(route, policy, s, actions[0]), actions[1..])
  }
}
