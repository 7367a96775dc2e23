/** One Kafka partition and the consumer's view of it, one record at a time. */
module Partition {
  import opened Prelude
  import opened Domain
  import opened Headers
  import opened Backoff
  import opened MessageHandler

  datatype Record = Record(offset: nat, headers: WireHeaders, message: Message)

  datatype TopicPartition = TopicPartition(topic: Topic, partition: nat)

  /** A record that went past the handler without an exception, and what that handling met. */
  datatype Passage = Passage(record: Record, met: Encounter)

  /** `log` and `committed` live in the broker; the rest lives in the consumer process, except the
      histories `passed`, `handed` (a record and the clock reading with which it reached the handler) and
      `sent` (what the handlings put on other topics). */
  datatype Partition = Partition(
    topic: Topic,
    log: seq<Record>,
    committed: nat,
    position: nat,
    paused: bool,
    pausedUntil: Option<int>,
    batch: seq<Record>,
    inHandler: bool,
    commitOffset: Option<nat>,
    passed: seq<Passage>,
    handed: seq<(Record, int)>,
    sent: seq<Delivery>)

  function Fresh(topic: Topic): Partition {
    Partition(topic, [], 0, 0, false, None, [], false, None, [], [], [])
  }

  function DeliveryOf(topic: Topic, record: Record): Delivery {
    Delivery(topic, record.headers, record.message)
  }

  /** A retry record whose time has not come. */
  predicate TooEarly(route: Route, topic: Topic, record: Record, now: int) {
    topic == route.retryTopic && RetryDueAt(Decoded(record.headers)) > now
  }

  // ---------------------------------------------------------------- logs and offsets

  /** Offsets strictly increase; they need not be contiguous. */
  ghost predicate Sorted(log: seq<Record>) {
    forall i, j :: 0 <= i < j < |log| ==> log[i].offset < log[j].offset
  }

  function End(log: seq<Record>): nat {
    if log == [] then 0 else log[|log| - 1].offset + 1
  }

  function Offsets(log: seq<Record>): (offsets: seq<nat>)
    ensures |offsets| == |log| && forall i :: 0 <= i < |log| ==> offsets[i] == log[i].offset
  {
    seq(|log|, i requires 0 <= i < |log| => log[i].offset)
  }

  /** How many records lie below an offset: the index at which reading from it starts. */
  function Before(log: seq<Record>, offset: nat): (k: nat)
    ensures k <= |log|
  {
    if log == [] then 0
    else if log[|log| - 1].offset < offset then |log|
    else Before(log[..|log| - 1], offset)
  }

  lemma {:induction false} BeforeSplits(log: seq<Record>, offset: nat)
    requires Sorted(log)
    ensures forall i :: 0 <= i < Before(log, offset) ==> log[i].offset < offset
    ensures forall i :: Before(log, offset) <= i < |log| ==> offset <= log[i].offset
  {
    if log != [] && log[|log| - 1].offset >= offset {
      BeforeSplits(log[..|log| - 1], offset);
    }
  }

  lemma {:induction false} BeforeIs(log: seq<Record>, offset: nat, k: nat)
    requires Sorted(log) && k <= |log|
    requires k > 0 ==> log[k - 1].offset < offset
    requires k < |log| ==> offset <= log[k].offset
    ensures Before(log, offset) == k
  {
    BeforeSplits(log, offset);
  }

  lemma {:induction false} BeforeMonotone(log: seq<Record>, low: nat, high: nat)
    requires Sorted(log) && low <= high
    ensures Before(log, low) <= Before(log, high)
  {
    if log != [] && log[|log| - 1].offset >= high {
      BeforeMonotone(log[..|log| - 1], low, high);
    }
  }

  lemma {:induction false} BeforeAppend(log: seq<Record>, record: Record, offset: nat)
    requires offset <= record.offset
    ensures Before(log + [record], offset) == Before(log, offset)
  {
    assert (log + [record])[..|log|] == log;
  }

  lemma {:induction false} SortedAppend(log: seq<Record>, record: Record)
    requires Sorted(log) && End(log) <= record.offset
    ensures Sorted(log + [record])
  {
  }

  // ---------------------------------------------------------------- steps

  datatype Action =
    | Append(record: Record)
    | Poll(count: nat)
    | Defer(now: int)
    | Start(now: int)
    | Finish(met: Encounter)
    | Commit
    | Resume(now: int)
    | Crash

  /** Between two loop iterations: nothing polled is left over, nothing waits to be committed. */
  predicate BetweenIterations(p: Partition) {
    p.batch == [] && p.commitOffset.None?
  }

  ghost predicate Enabled(route: Route, p: Partition, action: Action)
    requires Sorted(p.log)
  {
    match action
    case Append(record) => End(p.log) <= record.offset
    case Poll(count) =>
      BetweenIterations(p) && !p.paused && 1 <= count && Before(p.log, p.position) + count <= |p.log|
    case Defer(now) => p.batch != [] && !p.inHandler && TooEarly(route, p.topic, p.batch[0], now)
    case Start(now) => p.batch != [] && !p.inHandler && !TooEarly(route, p.topic, p.batch[0], now)
    case Finish(_) => p.batch != [] && p.inHandler
    case Commit => p.batch == []
    case Resume(_) => BetweenIterations(p)
    case Crash => true
  }

  ghost function Polled(p: Partition, count: nat): Partition
    requires Sorted(p.log) && 1 <= count && Before(p.log, p.position) + count <= |p.log|
  {
    var k := Before(p.log, p.position);
    p.(batch := p.log[k..k + count], position := p.log[k + count - 1].offset + 1)
  }

  function Deferred(p: Partition): Partition
    requires p.batch != []
  {
    p.(position := p.batch[0].offset, batch := [], paused := true,
       pausedUntil := Some(RetryDueAt(Decoded(p.batch[0].headers))))
  }

  function Started(p: Partition, now: int): Partition
    requires p.batch != []
  {
    p.(inHandler := true, handed := p.handed + [(p.batch[0], now)])
  }

  function Rewound(p: Partition): Partition
    requires p.batch != []
  {
    p.(position := p.batch[0].offset, batch := [], inHandler := false)
  }

  function PassedOn(p: Partition, met: Encounter): Partition
    requires p.batch != []
  {
    p.(commitOffset := Some(p.batch[0].offset + 1), batch := p.batch[1..], inHandler := false,
       passed := p.passed + [Passage(p.batch[0], met)])
  }

  function Finished(route: Route, policy: Policy, p: Partition, met: Encounter): Partition
    requires p.batch != []
  {
    var effect := Handle(route, policy, DeliveryOf(p.topic, p.batch[0]), met);
    (if effect.raised then Rewound(p) else PassedOn(p, met)).(sent := p.sent + effect.sent)
  }

  function Committed(p: Partition): Partition {
    match p.commitOffset
    case None => p
    case Some(offset) => p.(committed := offset, commitOffset := None)
  }

  function Resumed(p: Partition, now: int): Partition {
    if p.pausedUntil.Some? && p.pausedUntil.value <= now then p.(paused := false, pausedUntil := None) else p
  }

  /** A new process starts from the committed offset with nothing paused. */
  function Restarted(p: Partition): Partition {
    p.(position := p.committed, paused := false, pausedUntil := None, batch := [], inHandler := false,
       commitOffset := None)
  }

  ghost function Next(route: Route, policy: Policy, p: Partition, action: Action): Partition
    requires Sorted(p.log) && Enabled(route, p, action)
  {
    match action
    case Append(record) => p.(log := p.log + [record])
    case Poll(count) => Polled(p, count)
    case Defer(_) => Deferred(p)
    case Start(now) => Started(p, now)
    case Finish(met) => Finished(route, policy, p, met)
    case Commit => Committed(p)
    case Resume(now) => Resumed(p, now)
    case Crash => Restarted(p)
  }

  // ---------------------------------------------------------------- invariant

  /** The offset of the next record to be dealt with by this process. */
  function FrontierOffset(p: Partition): nat {
    if p.batch != [] then p.batch[0].offset else p.position
  }

  function Frontier(p: Partition): nat {
    Before(p.log, FrontierOffset(p))
  }

  function PassedOffsets(p: Partition): seq<nat> {
    seq(|p.passed|, i requires 0 <= i < |p.passed| => p.passed[i].record.offset)
  }

  /** First disposals follow the log, and everything below the frontier has been disposed of. */
  ghost predicate InLogOrder(p: Partition)
    requires Sorted(p.log)
  {
    var seen := FirstOccurrences(PassedOffsets(p));
    Frontier(p) <= |seen| <= |p.log| && seen == Offsets(p.log)[..|seen|]
  }

  ghost predicate CursorOk(p: Partition)
    requires Sorted(p.log)
  {
    var k := Frontier(p);
    && k + |p.batch| <= |p.log| && p.batch == p.log[k..k + |p.batch|]
    && (p.batch != [] ==> p.position == p.batch[|p.batch| - 1].offset + 1)
    && p.position <= End(p.log)
    && p.committed <= FrontierOffset(p)
    && (p.commitOffset.None? ==> Before(p.log, p.committed) == k)
    && (p.commitOffset.Some? ==>
          p.committed <= p.commitOffset.value <= FrontierOffset(p) && Before(p.log, p.commitOffset.value) == k)
    && (p.inHandler ==> p.batch != [])
  }

  /** A paused partition waits on the very retry record whose time it remembers. */
  ghost predicate PauseOk(route: Route, p: Partition)
    requires Sorted(p.log)
  {
    && (p.paused <==> p.pausedUntil.Some?)
    && (p.paused ==>
          && p.batch == [] && p.topic == route.retryTopic
          && Frontier(p) < |p.log| && p.log[Frontier(p)].offset == p.position
          && RetryDueAt(Decoded(p.log[Frontier(p)].headers)) == p.pausedUntil.value)
  }

  /** The passage was a handling that did not raise, and what it sent was sent. */
  ghost predicate LetGo(route: Route, policy: Policy, topic: Topic, sent: seq<Delivery>, h: Passage) {
    var effect := Handle(route, policy, DeliveryOf(topic, h.record), h.met);
    !effect.raised && forall n :: n in effect.sent ==> n in sent
  }

  ghost predicate HistoryOk(route: Route, policy: Policy, p: Partition) {
    && (forall h :: h in p.handed ==> h.0 in p.log && !TooEarly(route, p.topic, h.0, h.1))
    && (forall h :: h in p.passed ==> h.record in p.log && LetGo(route, policy, p.topic, p.sent, h))
  }

  ghost predicate Placed(route: Route, p: Partition) {
    && Sorted(p.log)
    && CursorOk(p)
    && InLogOrder(p)
    && PauseOk(route, p)
  }

  ghost predicate Inv(route: Route, policy: Policy, p: Partition) {
    Placed(route, p) && HistoryOk(route, policy, p)
  }

  lemma {:induction false} HistoryKept(route: Route, policy: Policy, p: Partition, q: Partition)
    requires HistoryOk(route, policy, p)
    requires q.topic == p.topic && q.passed == p.passed && q.handed == p.handed && p.log <= q.log
    requires p.sent <= q.sent
    ensures HistoryOk(route, policy, q)
  {
    assert forall record :: record in p.log ==> record in q.log;
    assert forall n :: n in p.sent ==> n in q.sent;
    hide Handle, TooEarly;
  }

  /** The record in hand is a record of the log. */
  lemma {:induction false} HeadIsInTheLog(p: Partition)
    requires Sorted(p.log) && CursorOk(p) && p.batch != []
    ensures p.batch[0] in p.log
  {
    assert p.batch[0] == p.log[Frontier(p)];
  }

  lemma {:induction false} FreshInv(route: Route, policy: Policy, topic: Topic)
    ensures Inv(route, policy, Fresh(topic))
  {
  }

  lemma {:induction false} EndGrows(log: seq<Record>, record: Record)
    requires End(log) <= record.offset
    ensures End(log) <= End(log + [record])
  {
  }

  lemma {:induction false} FrontierBelowEnd(p: Partition)
    requires Sorted(p.log) && CursorOk(p)
    ensures FrontierOffset(p) <= End(p.log)
  {
    if p.batch != [] {
      assert p.batch[0] == p.log[Frontier(p)];
    }
  }

  lemma {:induction false} AppendKeepsCursor(p: Partition, record: Record)
    requires Sorted(p.log) && CursorOk(p) && End(p.log) <= record.offset
    ensures var q := p.(log := p.log + [record]); Sorted(q.log) && CursorOk(q) && Frontier(q) == Frontier(p)
  {
    hide Before, Sorted, End;
    var q := p.(log := p.log + [record]);
    var k := Frontier(p);
    SortedAppend(p.log, record);
    EndGrows(p.log, record);
    FrontierBelowEnd(p);
    assert p.batch != [] ==> p.batch[0] == p.log[k];
    BeforeAppend(p.log, record, FrontierOffset(p));
    BeforeAppend(p.log, record, p.committed);
    if p.commitOffset.Some? {
      BeforeAppend(p.log, record, p.commitOffset.value);
    }
    assert q.log[k..k + |p.batch|] == p.log[k..k + |p.batch|];
  }

  lemma {:induction false} AppendKeepsOrder(p: Partition, record: Record)
    requires Sorted(p.log) && Sorted(p.log + [record]) && InLogOrder(p)
    requires Frontier(p.(log := p.log + [record])) == Frontier(p)
    ensures InLogOrder(p.(log := p.log + [record]))
  {
    var seen := FirstOccurrences(PassedOffsets(p));
    assert Offsets(p.log + [record])[..|seen|] == Offsets(p.log)[..|seen|];
  }

  lemma {:induction false} AppendKeeps(route: Route, p: Partition, record: Record)
    requires Placed(route, p) && End(p.log) <= record.offset
    ensures Placed(route, p.(log := p.log + [record]))
    ensures Frontier(p.(log := p.log + [record])) == Frontier(p)
  {
    AppendKeepsCursor(p, record);
    AppendKeepsOrder(p, record);
  }

  lemma {:induction false} PollKeepsCursor(p: Partition, count: nat)
    requires Sorted(p.log) && CursorOk(p) && BetweenIterations(p)
    requires 1 <= count && Before(p.log, p.position) + count <= |p.log|
    ensures CursorOk(Polled(p, count)) && Frontier(Polled(p, count)) == Frontier(p)
  {
    var q := Polled(p, count);
    var k := Frontier(p);
    BeforeSplits(p.log, p.position);
    BeforeIs(p.log, p.log[k].offset, k);
    assert q.batch[0] == p.log[k];
    assert q.batch[|q.batch| - 1] == p.log[k + count - 1];
  }

  lemma {:induction false} PollKeeps(route: Route, p: Partition, count: nat)
    requires Placed(route, p) && Enabled(route, p, Poll(count))
    ensures Placed(route, Polled(p, count)) && Frontier(Polled(p, count)) == Frontier(p)
  {
    PollKeepsCursor(p, count);
  }

  lemma {:induction false} RewindKeeps(route: Route, p: Partition)
    requires Placed(route, p) && p.batch != []
    ensures Placed(route, Rewound(p)) && Frontier(Rewound(p)) == Frontier(p)
  {
    assert p.batch[0] == p.log[Frontier(p)];
  }

  lemma {:induction false} DeferKeeps(route: Route, p: Partition, now: int)
    requires Placed(route, p) && Enabled(route, p, Defer(now))
    ensures Placed(route, Deferred(p)) && Frontier(Deferred(p)) == Frontier(p)
  {
    assert p.batch[0] == p.log[Frontier(p)];
  }

  lemma {:induction false} OffsetsDistinct(log: seq<Record>)
    requires Sorted(log)
    ensures Distinct(Offsets(log))
  {
  }

  lemma {:induction false} PassMovesFrontier(p: Partition, met: Encounter)
    requires Sorted(p.log) && CursorOk(p) && p.batch != []
    ensures CursorOk(PassedOn(p, met))
    ensures Frontier(PassedOn(p, met)) == Frontier(p) + 1
  {
    var q := PassedOn(p, met);
    var k := Frontier(p);
    assert p.batch[0] == p.log[k];
    assert |p.batch| > 1 ==> p.batch[1] == p.log[k + 1];
    BeforeIs(p.log, FrontierOffset(q), k + 1);
    BeforeIs(p.log, p.log[k].offset + 1, k + 1);
  }

  lemma {:induction false} PassKeeps(route: Route, p: Partition, met: Encounter)
    requires Placed(route, p) && p.batch != []
    ensures Placed(route, PassedOn(p, met))
    ensures Frontier(PassedOn(p, met)) == Frontier(p) + 1
  {
    var q := PassedOn(p, met);
    PassMovesFrontier(p, met);
    OffsetsDistinct(p.log);
    var k := Frontier(p);
    var seen := |FirstOccurrences(PassedOffsets(p))|;
    assert p.batch[0] == p.log[k];
    assert PassedOffsets(q) == PassedOffsets(p) + [Offsets(p.log)[k]];
    RestartableScan(PassedOffsets(p), Offsets(p.log), seen, k);
  }

  lemma {:induction false} RestartKeeps(route: Route, p: Partition)
    requires Placed(route, p)
    ensures Placed(route, Restarted(p)) && Frontier(Restarted(p)) <= Frontier(p)
  {
    BeforeMonotone(p.log, p.committed, FrontierOffset(p));
  }

  lemma {:induction false} CommitKeeps(route: Route, p: Partition)
    requires Placed(route, p) && p.batch == []
    ensures Placed(route, Committed(p)) && Frontier(Committed(p)) == Frontier(p)
  {
  }

  lemma {:induction false} FinishKeeps(route: Route, policy: Policy, p: Partition, met: Encounter)
    requires Placed(route, p) && p.batch != []
    ensures Placed(route, Finished(route, policy, p, met))
  {
    hide Placed, Rewound, PassedOn, Handle;
    RewindKeeps(route, p);
    PassKeeps(route, p, met);
    var sent := p.sent + Handle(route, policy, DeliveryOf(p.topic, p.batch[0]), met).sent;
    PlaceIgnoresSends(route, Rewound(p), sent);
    PlaceIgnoresSends(route, PassedOn(p, met), sent);
  }

  lemma {:induction false} PlaceIgnoresSends(route: Route, p: Partition, sent: seq<Delivery>)
    requires Placed(route, p)
    ensures Placed(route, p.(sent := sent))
  {
    hide Sorted, Before;
    SameFrontier(p, sent);
  }

  lemma {:induction false} SameFrontier(p: Partition, sent: seq<Delivery>)
    ensures Frontier(p.(sent := sent)) == Frontier(p) && PassedOffsets(p.(sent := sent)) == PassedOffsets(p)
  {
  }

  lemma {:induction false} StartKeeps(route: Route, p: Partition, now: int)
    requires Placed(route, p) && Enabled(route, p, Start(now))
    ensures Placed(route, Started(p, now))
  {
  }

  lemma {:induction false} ResumeKeeps(route: Route, p: Partition, now: int)
    requires Placed(route, p) && Enabled(route, p, Resume(now))
    ensures Placed(route, Resumed(p, now))
  {
  }

  lemma {:induction false} StepKeepsPlace(route: Route, policy: Policy, p: Partition, action: Action)
    requires Placed(route, p) && Enabled(route, p, action)
    ensures Placed(route, Next(route, policy, p, action))
  {
    match action
    case Append(record) => AppendKeeps(route, p, record);
    case Poll(count) => PollKeeps(route, p, count);
    case Defer(now) => DeferKeeps(route, p, now);
    case Start(now) => StartKeeps(route, p, now);
    case Finish(met) => FinishKeeps(route, policy, p, met);
    case Commit => CommitKeeps(route, p);
    case Resume(now) => ResumeKeeps(route, p, now);
    case Crash => RestartKeeps(route, p);
    hide Placed, Polled, Deferred, Started, Finished, Committed, Resumed, Restarted;
  }

  lemma {:induction false} HandedHistory(route: Route, policy: Policy, p: Partition, now: int)
    requires HistoryOk(route, policy, p) && p.batch != [] && p.batch[0] in p.log
    requires !TooEarly(route, p.topic, p.batch[0], now)
    ensures HistoryOk(route, policy, Started(p, now))
  {
    hide TooEarly, Handle;
  }

  lemma {:induction false} FinishedHistory(route: Route, policy: Policy, p: Partition, met: Encounter)
    requires HistoryOk(route, policy, p) && p.batch != [] && p.batch[0] in p.log
    ensures HistoryOk(route, policy, Finished(route, policy, p, met))
  {
    hide TooEarly, Handle;
    var q := Finished(route, policy, p, met);
    assert forall n :: n in p.sent ==> n in q.sent;
    forall h | h in q.passed ensures h.record in q.log && LetGo(route, policy, q.topic, q.sent, h) {
      if h in p.passed {
        assert LetGo(route, policy, p.topic, p.sent, h);
      }
    }
  }

  lemma {:induction false} StepKeepsHistory(route: Route, policy: Policy, p: Partition, action: Action)
    requires Inv(route, policy, p) && Enabled(route, p, action)
    ensures HistoryOk(route, policy, Next(route, policy, p, action))
  {
    hide InLogOrder, PauseOk, Frontier, Handle, HistoryOk, CursorOk, TooEarly;
    match action
    case Start(now) =>
      HeadIsInTheLog(p);
      HandedHistory(route, policy, p, now);
    case Finish(met) =>
      HeadIsInTheLog(p);
      FinishedHistory(route, policy, p, met);
    case _ => HistoryKept(route, policy, p, Next(route, policy, p, action));
  }

  lemma {:induction false} StepKeepsInv(route: Route, policy: Policy, p: Partition, action: Action)
    requires Inv(route, policy, p) && Enabled(route, p, action)
    ensures Inv(route, policy, Next(route, policy, p, action))
  {
    StepKeepsPlace(route, policy, p, action);
    StepKeepsHistory(route, policy, p, action);
  }

  // ---------------------------------------------------------------- runs

  ghost predicate Legal(route: Route, policy: Policy, p: Partition, actions: seq<Action>)
    decreases |actions|
  {
    actions == []
    || (Sorted(p.log) && Enabled(route, p, actions[0])
        && Legal(route, policy, Next(route, policy, p, actions[0]), actions[1..]))
  }

  ghost function Exec(route: Route, policy: Policy, p: Partition, actions: seq<Action>): Partition
    requires Legal(route, policy, p, actions)
    decreases |actions|
  {
    if actions == [] then p else Exec(route, policy, Next(route, policy, p, actions[0]), actions[1..])
  }

  lemma {:induction false} RunKeepsInv(route: Route, policy: Policy, p: Partition, actions: seq<Action>)
    requires Inv(route, policy, p) && Legal(route, policy, p, actions)
    ensures Inv(route, policy, Exec(route, policy, p, actions))
    decreases |actions|
  {
    if actions != [] {
      StepKeepsInv(route, policy, p, actions[0]);
      RunKeepsInv(route, policy, Next(route, policy, p, actions[0]), actions[1..]);
    }
  }

  lemma {:induction false} RunsConcatenate(route: Route, policy: Policy, p: Partition, first: seq<Action>, last: seq<Action>)
    requires Legal(route, policy, p, first) && Legal(route, policy, Exec(route, policy, p, first), last)
    ensures Legal(route, policy, p, first + last)
    ensures Exec(route, policy, p, first + last) == Exec(route, policy, Exec(route, policy, p, first), last)
    decreases |first|
  {
    hide Enabled, Next;
    if first == [] {
      assert first + last == last;
    } else {
      assert (first + last)[1..] == first[1..] + last;
      RunsConcatenate(route, policy, Next(route, policy, p, first[0]), first[1..], last);
    }
  }

  ghost predicate Reaches(route: Route, policy: Policy, topic: Topic, actions: seq<Action>, p: Partition) {
    Legal(route, policy, Fresh(topic), actions) && p == Exec(route, policy, Fresh(topic), actions)
  }

  lemma {:induction false} ReachableInv(route: Route, policy: Policy, topic: Topic, actions: seq<Action>, p: Partition)
    requires Reaches(route, policy, topic, actions, p)
    ensures Inv(route, policy, p)
  {
    FreshInv(route, policy, topic);
    RunKeepsInv(route, policy, Fresh(topic), actions);
  }

  /** Every log whose offsets increase can come about, gaps included. */
  lemma {:induction false} AnyLogCanArise(route: Route, policy: Policy, topic: Topic, log: seq<Record>)
    returns (actions: seq<Action>)
    requires Sorted(log)
    ensures Reaches(route, policy, topic, actions, Fresh(topic).(log := log))
    decreases |log|
  {
    if log == [] {
      actions := [];
    } else {
      var earlier, record := log[..|log| - 1], log[|log| - 1];
      actions := AnyLogCanArise(route, policy, topic, earlier);
      var p := Fresh(topic).(log := earlier);
      var last := [Append(record)];
      assert last[1..] == [];
      assert Legal(route, policy, Next(route, policy, p, Append(record)), last[1..]);
      assert Legal(route, policy, p, last) && Exec(route, policy, p, last) == p.(log := earlier + [record]);
      RunsConcatenate(route, policy, Fresh(topic), actions, last);
      assert earlier + [record] == log;
      actions := actions + last;
    }
  }

  // ---------------------------------------------------------------- offset safety

  lemma {:induction false} SameOffsetSameRecord(log: seq<Record>, record: Record, i: nat)
    requires Sorted(log) && record in log && i < |log| && record.offset == log[i].offset
    ensures record == log[i]
  {
  }

  /** Every record below the committed offset has been disposed of, in any run: that very record, with its
      headers and payload, was let go by a handling that had put on the topics exactly what accounts for it. */
  lemma {:induction false} NothingCommittedUnhandled(route: Route, policy: Policy, topic: Topic, actions: seq<Action>,
      p: Partition, i: nat)
    returns (passage: Passage, added: seq<Delivery>)
    requires Reaches(route, policy, topic, actions, p)
    requires i < |p.log| && p.log[i].offset < p.committed
    ensures passage in p.passed && passage.record == p.log[i]
    ensures Accounts(route, policy, DeliveryOf(topic, passage.record), passage.met, added)
    ensures forall n :: n in added ==> n in p.sent
  {
    ReachableInv(route, policy, topic, actions, p);
    TopicKept(route, policy, Fresh(topic), actions);
    BeforeMonotone(p.log, p.committed, FrontierOffset(p));
    BeforeSplits(p.log, p.committed);
    var offsets := PassedOffsets(p);
    var seen := FirstOccurrences(offsets);
    assert seen[i] == Offsets(p.log)[i];
    FirstOccurrencesMembers(offsets, p.log[i].offset);
    var n :| 0 <= n < |offsets| && offsets[n] == p.log[i].offset;
    passage := p.passed[n];
    SameOffsetSameRecord(p.log, passage.record, i);
    var d := DeliveryOf(topic, passage.record);
    assert LetGo(route, policy, p.topic, p.sent, passage);
    HandlingMeans(route, policy, d, passage.met);
    added := Handle(route, policy, d, passage.met).sent;
  }

  lemma {:induction false} TopicKept(route: Route, policy: Policy, p: Partition, actions: seq<Action>)
    requires Legal(route, policy, p, actions)
    ensures Exec(route, policy, p, actions).topic == p.topic
    decreases |actions|
  {
    if actions != [] {
      TopicKept(route, policy, Next(route, policy, p, actions[0]), actions[1..]);
    }
  }

  /** Between loop iterations no record lies between the committed offset and the next position. */
  lemma {:induction false} NothingSkipped(route: Route, policy: Policy, topic: Topic, actions: seq<Action>,
      p: Partition, i: nat)
    requires Reaches(route, policy, topic, actions, p)
    requires BetweenIterations(p) && i < |p.log|
    ensures !(p.committed <= p.log[i].offset < p.position)
  {
    ReachableInv(route, policy, topic, actions, p);
    BeforeSplits(p.log, p.committed);
    BeforeSplits(p.log, p.position);
  }

  /** The committed offset never goes back, whatever happens next. */
  lemma {:induction false} CommitNeverGoesBack(route: Route, policy: Policy, topic: Topic, actions: seq<Action>,
      p: Partition, action: Action)
    requires Reaches(route, policy, topic, actions, p)
    requires Sorted(p.log) && Enabled(route, p, action)
    ensures p.committed <= Next(route, policy, p, action).committed <= End(Next(route, policy, p, action).log)
  {
    ReachableInv(route, policy, topic, actions, p);
    StepKeepsInv(route, policy, p, action);
    var q := Next(route, policy, p, action);
    assert q.batch != [] ==> q.batch[0] == q.log[Frontier(q)];
  }

  /** Records are disposed of for the first time in log order, without a gap, however often the process
      restarts and rereads. */
  lemma {:induction false} FirstDisposalsFollowTheLog(route: Route, policy: Policy, topic: Topic,
      actions: seq<Action>, p: Partition)
    requires Reaches(route, policy, topic, actions, p)
    ensures FirstOccurrences(PassedOffsets(p)) <= Offsets(p.log)
  {
    ReachableInv(route, policy, topic, actions, p);
  }

  // ---------------------------------------------------------------- pause discipline

  /** No retry record reaches the handler before its time, and a paused partition stands on the retry
      record it waits for. */
  lemma {:induction false} PausesAreHonoured(route: Route, policy: Policy, topic: Topic, actions: seq<Action>,
      p: Partition)
    requires Reaches(route, policy, topic, actions, p)
    ensures topic == route.retryTopic ==>
              forall h :: h in p.handed ==> h.0 in p.log && RetryDueAt(Decoded(h.0.headers)) <= h.1
    ensures p.paused <==> p.pausedUntil.Some?
    ensures p.paused ==>
              exists i :: && 0 <= i < |p.log| && p.log[i].offset == p.position && topic == route.retryTopic
                          && RetryDueAt(Decoded(p.log[i].headers)) == p.pausedUntil.value
  {
    ReachableInv(route, policy, topic, actions, p);
    TopicKept(route, policy, Fresh(topic), actions);
    if p.paused {
      assert p.log[Frontier(p)].offset == p.position;
    }
  }

  /** After a resume pass whatever is still paused is strictly not due, and whatever was resumed was due. */
  lemma {:induction false} ResumePassIsExact(route: Route, policy: Policy, topic: Topic, actions: seq<Action>,
      p: Partition, now: int)
    requires Reaches(route, policy, topic, actions, p)
    ensures var q := Resumed(p, now);
            && (q.paused <==> p.pausedUntil.Some? && p.pausedUntil.value > now)
            && (q.paused ==> q == p)
            && q.position == p.position && q.committed == p.committed
  {
    ReachableInv(route, policy, topic, actions, p);
  }
}
