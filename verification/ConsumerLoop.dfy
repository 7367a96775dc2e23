/** The poll, gather and commit loop of `run_worker`, and `_consume_partition` inside it. */
module ConsumerLoop {
  import opened Prelude
  import opened Domain
  import opened Headers
  import opened Backoff
  import opened MessageHandler
  import P = Partition

  type Partition = P.Partition
  type Record = P.Record
  type TopicPartition = P.TopicPartition

  /** What one record meets when its turn comes: the clock reading of the deferral test, then the handling. */
  datatype Meeting = Meeting(reading: int, met: Encounter)

  // ---------------------------------------------------------------- a batch of one partition

  /** The outcome of consuming one partition's messages. */
  datatype Consumed = Consumed(
    commitOffset: Option<nat>,
    rewindTo: Option<nat>,
    pauseUntil: Option<int>,
    sent: seq<Delivery>)

  const NOTHING := Consumed(None, None, None, [])

  predicate Stopped(c: Consumed) {
    c.rewindTo.Some?
  }

  /** `first`, followed by `rest` when `first` did not stop. */
  function Then(first: Consumed, rest: Consumed): Consumed {
    if Stopped(first) then first
    else Consumed(if rest.commitOffset.Some? then rest.commitOffset else first.commitOffset,
                  rest.rewindTo, rest.pauseUntil, first.sent + rest.sent)
  }

  function ConsumeOne(route: Route, policy: Policy, topic: Topic, record: Record, m: Meeting): Consumed {
    if P.TooEarly(route, topic, record, m.reading) then
      Consumed(None, Some(record.offset), Some(RetryDueAt(Decoded(record.headers))), [])
    else
      var effect := Handle(route, policy, P.DeliveryOf(topic, record), m.met);
      if effect.raised then Consumed(None, Some(record.offset), None, effect.sent)
      else Consumed(Some(record.offset + 1), None, None, effect.sent)
  }

  /** Record by record until the first deferral or exception. */
  function Consume(route: Route, policy: Policy, topic: Topic, records: seq<Record>, ms: seq<Meeting>): Consumed
    requires |records| <= |ms|
    decreases |records|
  {
    if records == [] then NOTHING
    else Then(ConsumeOne(route, policy, topic, records[0], ms[0]),
              Consume(route, policy, topic, records[1..], ms[1..]))
  }

  /** Consuming `a` and then, unless `a` stopped, `b` is the same as consuming `a + b`. */
  lemma {:induction false} ConsumeSplits( route: Route, policy: Policy, topic: Topic, a: seq<Record>, b: seq<Record>,
      ma: seq<Meeting>, mb: seq<Meeting>)
    requires |a| == |ma| && |b| <= |mb|
    ensures Consume(route, policy, topic, a + b, ma + mb)
         == Then(Consume(route, policy, topic, a, ma), Consume(route, policy, topic, b, mb))
    decreases |a|
  {
    if a == [] {
      assert a + b == b && ma + mb == mb;
    } else {
      assert (a + b)[1..] == a[1..] + b && (ma + mb)[1..] == ma[1..] + mb;
      ConsumeSplits(route, policy, topic, a[1..], b, ma[1..], mb);
      var one := ConsumeOne(route, policy, topic, a[0], ma[0]);
      ThenAssociates(one, Consume(route, policy, topic, a[1..], ma[1..]), Consume(route, policy, topic, b, mb));
    }
  }

  // ---------------------------------------------------------------- what a batch amounts to

  /** A record on the retry topic whose due time lies ahead. */
  predicate MustWait(route: Route, topic: Topic, record: Record, reading: int) {
    topic == route.retryTopic && reading < RetryDueAt(Decoded(record.headers))
  }

  function Concatenated(each: seq<seq<Delivery>>): seq<Delivery> {
    if each == [] then [] else each[0] + Concatenated(each[1..])
  }

  /** The first `done` records were let go, each accounting for itself with `each[i]`; the next one, if any, had
      to wait or raised, and then at most its own replacement strayed onto a topic. */
  ghost predicate Settles(route: Route, policy: Policy, topic: Topic, records: seq<Record>, ms: seq<Meeting>, done: nat,
                          each: seq<seq<Delivery>>)
    requires |records| <= |ms|
  {
    && done <= |records| && |each| == (if done < |records| then done + 1 else done)
    && (forall i :: 0 <= i < done ==>
          && !MustWait(route, topic, records[i], ms[i].reading)
          && Accounts(route, policy, P.DeliveryOf(topic, records[i]), ms[i].met, each[i]))
    && (done < |records| ==>
          if MustWait(route, topic, records[done], ms[done].reading) then each[done] == []
          else
            var d := P.DeliveryOf(topic, records[done]);
            && !NamesAnotherRole(route, d)
            && (ms[done].met.reply.RoleRaises? || (!ms[done].met.reply.ok && !ms[done].met.send.Delivered?))
            && Strays(route, policy, d, ms[done].met, each[done]))
  }

  /** The outcome that goes with it: commit after the records let go, go back to the one that stopped, and wait
      for it if it has to. */
  function Outcome(route: Route, topic: Topic, records: seq<Record>, ms: seq<Meeting>, done: nat, each: seq<seq<Delivery>>):
    Consumed
    requires done <= |records| <= |ms|
  {
    Consumed(
      if done == 0 then None else Some(records[done - 1].offset + 1),
      if done < |records| then Some(records[done].offset) else None,
      if done < |records| && MustWait(route, topic, records[done], ms[done].reading)
      then Some(RetryDueAt(Decoded(records[done].headers))) else None,
      Concatenated(each))
  }

  lemma {:induction false} ConsumeOneMeans(route: Route, policy: Policy, topic: Topic, record: Record, m: Meeting)
    ensures var c := ConsumeOne(route, policy, topic, record, m);
            var d := P.DeliveryOf(topic, record);
            if MustWait(route, topic, record, m.reading) then
              c == Consumed(None, Some(record.offset), Some(RetryDueAt(Decoded(record.headers))), [])
            else if !NamesAnotherRole(route, d)
                    && (m.met.reply.RoleRaises? || (!m.met.reply.ok && !m.met.send.Delivered?)) then
              c == Consumed(None, Some(record.offset), None, c.sent) && Strays(route, policy, d, m.met, c.sent)
            else
              c == Consumed(Some(record.offset + 1), None, None, c.sent) && Accounts(route, policy, d, m.met, c.sent)
  {
    hide Handle, RetryDueAt, Decoded, Accounts, Strays;
    HandlingMeans(route, policy, P.DeliveryOf(topic, record), m.met);
  }

  /** Whatever a batch meets, the records below the offset it returns have all been accounted for on the topics,
      one by one and in order, and nothing else was sent but, perhaps, the replacement of the record at which it
      stopped. */
  lemma {:induction false} ConsumeMeans(route: Route, policy: Policy, topic: Topic, records: seq<Record>, ms: seq<Meeting>)
    returns (done: nat, each: seq<seq<Delivery>>)
    requires |records| <= |ms|
    ensures Settles(route, policy, topic, records, ms, done, each)
    ensures Consume(route, policy, topic, records, ms) == Outcome(route, topic, records, ms, done, each)
    decreases |records|
  {
    hide ConsumeOne, Accounts, Strays, MustWait, NamesAnotherRole, RetryDueAt, Decoded;
    done, each := 0, [];
    if records != [] {
      ConsumeOneMeans(route, policy, topic, records[0], ms[0]);
      var one := ConsumeOne(route, policy, topic, records[0], ms[0]);
      each := [one.sent];
      assert Concatenated(each) == one.sent by { JustOne(one.sent); }
      if !Stopped(one) {
        var k, rest := ConsumeMeans(route, policy, topic, records[1..], ms[1..]);
        done, each := k + 1, [one.sent] + rest;
        assert each[1..] == rest;
      }
    }
  }

  lemma {:induction false} OutcomeParts(route: Route, topic: Topic, records: seq<Record>, ms: seq<Meeting>, done: nat,
      each: seq<seq<Delivery>>)
    requires done <= |records| <= |ms|
    ensures var c := Outcome(route, topic, records, ms, done, each);
            && c.commitOffset == (if done == 0 then None else Some(records[done - 1].offset + 1))
            && c.rewindTo == (if done < |records| then Some(records[done].offset) else None)
            && c.sent == Concatenated(each)
  {
  }

  lemma {:induction false} SettlesCount(route: Route, policy: Policy, topic: Topic, records: seq<Record>,
      ms: seq<Meeting>, done: nat, each: seq<seq<Delivery>>)
    requires |records| <= |ms| && Settles(route, policy, topic, records, ms, done, each)
    ensures done <= |records|
  {
  }

  lemma {:induction false} JustOne(sent: seq<Delivery>)
    ensures Concatenated([sent]) == sent
  {
    assert [sent][1..] == [];
    assert sent + [] == sent;
  }

  lemma {:induction false} ThenAssociates(a: Consumed, b: Consumed, c: Consumed)
    ensures Then(a, Then(b, c)) == Then(Then(a, b), c)
  {
  }

  // ---------------------------------------------------------------- the loop, imperatively

  class KafkaConsumer {
    var positions: map<TopicPartition, nat>
    var paused: set<TopicPartition>
    var committed: map<TopicPartition, nat>

    constructor ()
      ensures positions == map[] && paused == {} && committed == map[]
    {
      positions, paused, committed := map[], {}, map[];
    }

    method Seek(tp: TopicPartition, offset: nat)
      modifies this`positions
      ensures positions == old(positions)[tp := offset]
    {
      positions := positions[tp := offset];
    }

    /** `getmany`: the fetched records, none of them from a paused partition, are behind the new positions. */
    method GetMany(fetched: map<TopicPartition, seq<Record>>)
      requires fetched.Keys !! paused
      requires forall tp :: tp in fetched ==> fetched[tp] != []
      modifies this`positions
      ensures positions == old(positions) + Ends(fetched)
    {
      positions := positions + Ends(fetched);
    }

    method Pause(tp: TopicPartition)
      modifies this`paused
      ensures paused == old(paused) + {tp}
    {
      paused := paused + {tp};
    }

    method Resume(tp: TopicPartition)
      modifies this`paused
      ensures paused == old(paused) - {tp}
    {
      paused := paused - {tp};
    }

    method Commit(offsets: map<TopicPartition, nat>)
      modifies this`committed
      ensures committed == old(committed) + offsets
    {
      committed := committed + offsets;
    }
  }

  function Due(pausedUntil: map<TopicPartition, int>, now: int): set<TopicPartition> {
    set tp | tp in pausedUntil && pausedUntil[tp] <= now
  }

  class WorkerLoop {
    const route: Route
    const policy: Policy
    const consumer: KafkaConsumer
    const publisher: Publisher
    var pausedUntil: map<TopicPartition, int>

    constructor (route: Route, policy: Policy, consumer: KafkaConsumer, publisher: Publisher)
      ensures this.route == route && this.policy == policy
      ensures this.consumer == consumer && this.publisher == publisher && pausedUntil == map[]
    {
      this.route, this.policy, this.consumer, this.publisher := route, policy, consumer, publisher;
      pausedUntil := map[];
    }

    /** Exactly the partitions whose time has come are resumed and forgotten. */
    method ResumeDuePartitions(now: int)
      modifies this`pausedUntil, consumer`paused
      ensures pausedUntil == old(pausedUntil) - Due(old(pausedUntil), now)
      ensures consumer.paused == old(consumer.paused) - Due(old(pausedUntil), now)
      ensures forall tp :: tp in pausedUntil ==> now < pausedUntil[tp]
    {
      var due := Due(pausedUntil, now);
      var left := due;
      while left != {}
        invariant left <= due
        invariant pausedUntil == old(pausedUntil) - (due - left)
        invariant consumer.paused == old(consumer.paused) - (due - left)
      {
        var tp :| tp in left;
        pausedUntil := pausedUntil - {tp};
        consumer.Resume(tp);
        left := left - {tp};
      }
    }

    /** The loop body: deferral test, handling, and the rewind when either says stop. */
    method ConsumeRecord(tp: TopicPartition, message: Record, m: Meeting) returns (stopped: bool)
      modifies this`pausedUntil, consumer`positions, consumer`paused, publisher
      ensures Applied(tp, ConsumeOne(route, policy, tp.topic, message, m),
                      old(consumer.positions), old(consumer.paused), old(pausedUntil), old(publisher.log))
      ensures stopped == Stopped(ConsumeOne(route, policy, tp.topic, message, m))
      ensures old(publisher.log) <= publisher.log
      ensures var added := publisher.log[|old(publisher.log)|..];
              var d := P.DeliveryOf(tp.topic, message);
              && (!stopped ==> !MustWait(route, tp.topic, message, m.reading) && Accounts(route, policy, d, m.met, added))
              && (MustWait(route, tp.topic, message, m.reading) ==>
                    && stopped && added == []
                    && tp in pausedUntil && pausedUntil[tp] == RetryDueAt(Decoded(message.headers)))
              && (stopped ==>
                    && tp in consumer.positions && consumer.positions[tp] == message.offset
                    && (MustWait(route, tp.topic, message, m.reading) || Strays(route, policy, d, m.met, added)))
    {
      ConsumeOneMeans(route, policy, tp.topic, message, m);
      hide Accounts, Strays;
      var headers := DecodeHeaders(message.headers);
      if tp.topic == route.retryTopic {
        var dueAt := RetryDueAt(headers);
        if dueAt > m.reading {
          consumer.Seek(tp, message.offset);
          consumer.Pause(tp);
          pausedUntil := pausedUntil[tp := dueAt];
          return true;
        }
      }
      var raised := HandleMessage(route, policy, publisher, P.DeliveryOf(tp.topic, message), m.met);
      if raised {
        consumer.Seek(tp, message.offset);
      }
      stopped := raised;
    }

    /** The consumer, the pause table and the publisher after one partition came out as `c`. */
    ghost predicate Applied(tp: TopicPartition, c: Consumed, positions: map<TopicPartition, nat>,
                            paused: set<TopicPartition>, waiting: map<TopicPartition, int>, log: seq<Delivery>)
      reads this, consumer, publisher
    {
      && consumer.positions == Extended(positions, tp, c.rewindTo)
      && consumer.paused == paused + Extended(map[], tp, c.pauseUntil).Keys
      && pausedUntil == Extended(waiting, tp, c.pauseUntil)
      && publisher.log == log + c.sent
    }

    /** One partition's messages, in order, up to the first deferral or exception. */
    method ConsumePartition(tp: TopicPartition, messages: seq<Record>, ms: seq<Meeting>)
      returns (commitOffset: Option<nat>, ghost done: nat, ghost each: seq<seq<Delivery>>)
      requires |messages| <= |ms|
      modifies this`pausedUntil, consumer`positions, consumer`paused, publisher
      ensures commitOffset == Consume(route, policy, tp.topic, messages, ms).commitOffset
      ensures Applied(tp, Consume(route, policy, tp.topic, messages, ms),
                      old(consumer.positions), old(consumer.paused), old(pausedUntil), old(publisher.log))
      ensures Settles(route, policy, tp.topic, messages, ms, done, each)
      ensures commitOffset == if done == 0 then None else Some(messages[done - 1].offset + 1)
      ensures publisher.log == old(publisher.log) + Concatenated(each)
      ensures done < |messages| ==> tp in consumer.positions && consumer.positions[tp] == messages[done].offset
    {
      hide Consume, ConsumeOne, Settles, Accounts, Strays, MustWait, Outcome;
      done, each := ConsumeMeans(route, policy, tp.topic, messages, ms);
      SettlesCount(route, policy, tp.topic, messages, ms, done, each);
      ghost var whole := Consume(route, policy, tp.topic, messages, ms);
      assert whole.commitOffset == (if done == 0 then None else Some(messages[done - 1].offset + 1))
             && whole.rewindTo == (if done < |messages| then Some(messages[done].offset) else None)
             && whole.sent == Concatenated(each) by {
        OutcomeParts(route, tp.topic, messages, ms, done, each);
      }
      commitOffset := None;
      ghost var sofar := NOTHING;
      for i := 0 to |messages|
        invariant !Stopped(sofar) && sofar.pauseUntil.None? && sofar.commitOffset == commitOffset
        invariant whole == Then(sofar, Consume(route, policy, tp.topic, messages[i..], ms[i..]))
        invariant Applied(tp, sofar, old(consumer.positions), old(consumer.paused), old(pausedUntil), old(publisher.log))
      {
        ghost var one := ConsumeOne(route, policy, tp.topic, messages[i], ms[i]);
        UnfoldAt(route, policy, tp.topic, messages, ms, i, sofar);
        assert old(publisher.log) + sofar.sent + one.sent == old(publisher.log) + (sofar.sent + one.sent);
        var stopped := ConsumeRecord(tp, messages[i], ms[i]);
        if stopped {
          return;
        }
        commitOffset := Some(messages[i].offset + 1);
        sofar := Then(sofar, one);
      }
      assert messages[|messages|..] == [];
      ConsumeNone(route, policy, tp.topic, ms[|messages|..]);
      assert sofar.sent + [] == sofar.sent;
      assert whole == sofar;
    }

    /** The batches of one poll, one partition after another; the offsets to commit are collected. Each
        partition's sends go out together, in the order in which the partitions ran. */
    method Gather(polled: Batches, ms: Scripts)
      returns (offsets: map<TopicPartition, nat>, ghost order: seq<TopicPartition>)
      requires Covers(polled, ms)
      modifies this`pausedUntil, consumer`positions, consumer`paused, publisher
      ensures consumer.positions == old(consumer.positions) + Rewinds(Outcomes(route, policy, polled, ms))
      ensures consumer.paused == old(consumer.paused) + Waits(Outcomes(route, policy, polled, ms)).Keys
      ensures pausedUntil == old(pausedUntil) + Waits(Outcomes(route, policy, polled, ms))
      ensures offsets == Commits(Outcomes(route, policy, polled, ms))
      ensures Enumerates(order, polled.Keys)
      ensures publisher.log == old(publisher.log) + SentBy(order, Outcomes(route, policy, polled, ms))
      ensures forall tp :: tp in polled ==>
                AccountsForAll(route, policy, tp.topic, polled[tp], ms[tp], Outcomes(route, policy, polled, ms)[tp])
    {
      hide AccountsForAll, Consume, Rewinds, Waits, Commits, Extended, SentBy, Enumerates;
      NoPartitions();
      NoSends();
      order := [];
      offsets := map[];
      ghost var done: map<TopicPartition, Consumed> := map[];
      assert done.Keys == {};
      var left := polled.Keys;
      while left != {}
        invariant done.Keys == polled.Keys - left && left <= polled.Keys
        invariant forall tp :: tp in done ==> done[tp] == Consume(route, policy, tp.topic, polled[tp], ms[tp])
        invariant consumer.positions == old(consumer.positions) + Rewinds(done)
        invariant consumer.paused == old(consumer.paused) + Waits(done).Keys
        invariant pausedUntil == old(pausedUntil) + Waits(done)
        invariant offsets == Commits(done)
        invariant Enumerates(order, done.Keys)
        invariant publisher.log == old(publisher.log) + SentBy(order, done)
        decreases left
      {
        var tp :| tp in left;
        ghost var c := Consume(route, policy, tp.topic, polled[tp], ms[tp]);
        var commitOffset, _, _ := ConsumePartition(tp, polled[tp], ms[tp]);
        OneMorePartition(done, tp, c);
        MergeExtended(old(consumer.positions), Rewinds(done), tp, c.rewindTo);
        MergeExtended(old(pausedUntil), Waits(done), tp, c.pauseUntil);
        KeysExtended(old(consumer.paused), Waits(done), tp, c.pauseUntil);
        offsets := Extended(offsets, tp, commitOffset);
        OneMoreSender(order, done, tp, c);
        Associative(old(publisher.log), SentBy(order, done), c.sent);
        left := left - {tp};
        done := done[tp := c];
        order := order + [tp];
      }
      assert done == Outcomes(route, policy, polled, ms) && done.Keys == polled.Keys;
      OutcomesAccountForAll(route, policy, polled, ms);
    }

    /** One turn of the main loop: resume what is due, poll, consume every polled partition, and commit the
        successful prefixes. The consumer's paused set stays equal to the keys of the pause table. */
    method Iterate(now: int, polled: Batches, ms: Scripts) returns (ghost order: seq<TopicPartition>)
      requires Covers(polled, ms) && forall tp :: tp in polled ==> polled[tp] != []
      requires consumer.paused == pausedUntil.Keys
      requires polled.Keys !! (pausedUntil.Keys - Due(pausedUntil, now))
      modifies this`pausedUntil, consumer, publisher
      ensures consumer.positions == old(consumer.positions) + Ends(polled) + Rewinds(Outcomes(route, policy, polled, ms))
      ensures pausedUntil == old(pausedUntil) - Due(old(pausedUntil), now) + Waits(Outcomes(route, policy, polled, ms))
      ensures consumer.committed == old(consumer.committed) + Commits(Outcomes(route, policy, polled, ms))
      ensures consumer.paused == pausedUntil.Keys
      ensures Enumerates(order, polled.Keys)
      ensures publisher.log == old(publisher.log) + SentBy(order, Outcomes(route, policy, polled, ms))
      ensures forall tp :: tp in polled ==>
                AccountsForAll(route, policy, tp.topic, polled[tp], ms[tp], Outcomes(route, policy, polled, ms)[tp])
    {
      hide AccountsForAll, Consume, SentBy, Enumerates;
      ResumeDuePartitions(now);
      consumer.GetMany(polled);
      var offsets;
      offsets, order := Gather(polled, ms);
      if offsets != map[] {
        consumer.Commit(offsets);
      }
    }
  }

  type Batches = map<TopicPartition, seq<Record>>
  type Scripts = map<TopicPartition, seq<Meeting>>

  predicate Covers(polled: Batches, ms: Scripts) {
    ms.Keys == polled.Keys && forall tp :: tp in polled ==> |polled[tp]| <= |ms[tp]|
  }

  function Ends(polled: Batches): map<TopicPartition, nat> {
    map tp | tp in polled :: P.End(polled[tp])
  }

  function Outcomes(route: Route, policy: Policy, polled: Batches, ms: Scripts): map<TopicPartition, Consumed>
    requires Covers(polled, ms)
  {
    map tp | tp in polled :: Consume(route, policy, tp.topic, polled[tp], ms[tp])
  }

  /** The outcome commits after, sends for and goes back to just what its records call for. */
  ghost predicate AccountsForAll(route: Route, policy: Policy, topic: Topic, records: seq<Record>, ms: seq<Meeting>,
                                 c: Consumed)
    requires |records| <= |ms|
  {
    exists done, each ::
      Settles(route, policy, topic, records, ms, done, each) && c == Outcome(route, topic, records, ms, done, each)
  }

  lemma {:induction false} OutcomesAccountForAll(route: Route, policy: Policy, polled: Batches, ms: Scripts)
    requires Covers(polled, ms)
    ensures forall tp :: tp in polled ==>
              AccountsForAll(route, policy, tp.topic, polled[tp], ms[tp], Outcomes(route, policy, polled, ms)[tp])
  {
    hide Consume, Settles, Outcome;
    forall tp | tp in polled
      ensures AccountsForAll(route, policy, tp.topic, polled[tp], ms[tp], Outcomes(route, policy, polled, ms)[tp])
    {
      var done, each := ConsumeMeans(route, policy, tp.topic, polled[tp], ms[tp]);
      SettlesCount(route, policy, tp.topic, polled[tp], ms[tp], done, each);
    }
  }

  /** Where partitions were rewound to, until when they wait, and what they commit. */
  function Rewinds(outcomes: map<TopicPartition, Consumed>): map<TopicPartition, nat> {
    map tp | tp in outcomes && outcomes[tp].rewindTo.Some? :: outcomes[tp].rewindTo.value
  }

  function Waits(outcomes: map<TopicPartition, Consumed>): map<TopicPartition, int> {
    map tp | tp in outcomes && outcomes[tp].pauseUntil.Some? :: outcomes[tp].pauseUntil.value
  }

  function Commits(outcomes: map<TopicPartition, Consumed>): map<TopicPartition, nat> {
    map tp | tp in outcomes && outcomes[tp].commitOffset.Some? :: outcomes[tp].commitOffset.value
  }

  /** An order in which every partition comes once. */
  ghost predicate Enumerates(order: seq<TopicPartition>, tps: set<TopicPartition>) {
    Distinct(order) && forall tp :: tp in order <==> tp in tps
  }

  function SentOf(outcomes: map<TopicPartition, Consumed>, tp: TopicPartition): seq<Delivery> {
    if tp in outcomes then outcomes[tp].sent else []
  }

  /** What the partitions sent, one after another. */
  function SentBy(order: seq<TopicPartition>, outcomes: map<TopicPartition, Consumed>): seq<Delivery> {
    if order == [] then []
    else SentBy(order[..|order| - 1], outcomes) + SentOf(outcomes, order[|order| - 1])
  }

  lemma {:induction false} NoSends()
    ensures SentBy([], map[]) == [] && Enumerates([], {})
  {
  }

  lemma {:induction false} SentByOthers(order: seq<TopicPartition>, done: map<TopicPartition, Consumed>,
      tp: TopicPartition, c: Consumed)
    requires tp !in order
    ensures SentBy(order, done[tp := c]) == SentBy(order, done)
  {
    if order != [] {
      SentByOthers(order[..|order| - 1], done, tp, c);
    }
  }

  lemma {:induction false} SentAppend(order: seq<TopicPartition>, tp: TopicPartition,
      outcomes: map<TopicPartition, Consumed>)
    ensures SentBy(order + [tp], outcomes) == SentBy(order, outcomes) + SentOf(outcomes, tp)
  {
    assert (order + [tp])[..|order|] == order;
  }

  lemma {:induction false} OneMoreSender(order: seq<TopicPartition>, done: map<TopicPartition, Consumed>,
      tp: TopicPartition, c: Consumed)
    requires Enumerates(order, done.Keys) && tp !in done
    ensures Enumerates(order + [tp], done[tp := c].Keys)
    ensures SentBy(order + [tp], done[tp := c]) == SentBy(order, done) + c.sent
  {
    SentByOthers(order, done, tp, c);
    SentAppend(order, tp, done[tp := c]);
  }

  lemma {:induction false} SentWithout(order: seq<TopicPartition>, j: nat, outcomes: map<TopicPartition, Consumed>)
    requires j < |order|
    ensures multiset(SentBy(order, outcomes))
         == multiset(SentBy(order[..j] + order[j + 1..], outcomes)) + multiset(SentOf(outcomes, order[j]))
    decreases |order|
  {
    hide SentBy, SentOf;
    var n := |order| - 1;
    var rest := order[..j] + order[j + 1..];
    assert order == order[..n] + [order[n]];
    SentAppend(order[..n], order[n], outcomes);
    if j < n {
      var shorter := order[..n][..j] + order[..n][j + 1..];
      SentWithout(order[..n], j, outcomes);
      SentAppend(shorter, order[n], outcomes);
      assert rest == shorter + [order[n]];
    } else {
      assert rest == order[..n];
    }
  }

  lemma {:induction false} FirstIsMember(order: seq<TopicPartition>)
    ensures order != [] ==> order[0] in order
  {
  }

  /** In whatever order the partitions of a poll run, they send the same messages. */
  lemma {:induction false} EveryOrderSendsTheSame(a: seq<TopicPartition>, b: seq<TopicPartition>,
      outcomes: map<TopicPartition, Consumed>)
    requires Distinct(a) && Distinct(b) && forall tp :: tp in a <==> tp in b
    ensures multiset(SentBy(a, outcomes)) == multiset(SentBy(b, outcomes))
    decreases |a|
  {
    hide SentBy, SentOf;
    if a == [] {
      FirstIsMember(b);
    } else {
      var n := |a| - 1;
      assert a[n] in b;
      var j :| 0 <= j < |b| && b[j] == a[n];
      SentWithout(a, n, outcomes);
      assert a[..n] + a[n + 1..] == a[..n];
      SentWithout(b, j, outcomes);
      SameButOne(a, b, j);
      EveryOrderSendsTheSame(a[..n], b[..j] + b[j + 1..], outcomes);
    }
  }

  lemma {:induction false} SameButOne(a: seq<TopicPartition>, b: seq<TopicPartition>, j: nat)
    requires Distinct(a) && Distinct(b) && forall tp :: tp in a <==> tp in b
    requires a != [] && j < |b| && b[j] == a[|a| - 1]
    ensures var rest := b[..j] + b[j + 1..];
            Distinct(rest) && forall tp :: tp in a[..|a| - 1] <==> tp in rest
  {
    var n := |a| - 1;
    var rest := b[..j] + b[j + 1..];
    forall tp ensures tp in a[..n] <==> tp in rest {
      if tp in a[..n] {
        var i :| 0 <= i < n && a[i] == tp;
        assert tp != b[j] && tp in b;
        var m :| 0 <= m < |b| && b[m] == tp;
        assert rest[if m < j then m else m - 1] == tp;
      }
      if tp in rest {
        var m :| 0 <= m < |rest| && rest[m] == tp;
        assert b[if m < j then m else m + 1] == tp;
        assert tp in a;
        var i :| 0 <= i < |a| && a[i] == tp;
        assert i < n;
      }
    }
  }

  lemma {:induction false} OneMorePartition(done: map<TopicPartition, Consumed>, tp: TopicPartition, c: Consumed)
    requires tp !in done
    ensures Rewinds(done[tp := c]) == Extended(Rewinds(done), tp, c.rewindTo)
    ensures Waits(done[tp := c]) == Extended(Waits(done), tp, c.pauseUntil)
    ensures Commits(done[tp := c]) == Extended(Commits(done), tp, c.commitOffset)
  {
  }

  lemma {:induction false} MergeExtended<V>(a: map<TopicPartition, V>, b: map<TopicPartition, V>, tp: TopicPartition,
      value: Option<V>)
    ensures Extended(a + b, tp, value) == a + Extended(b, tp, value)
  {
  }

  lemma {:induction false} KeysExtended<V>(a: set<TopicPartition>, b: map<TopicPartition, V>, tp: TopicPartition,
      value: Option<V>)
    ensures a + b.Keys + Extended(map[], tp, value).Keys == a + Extended(b, tp, value).Keys
  {
  }

  lemma {:induction false} NoPartitions()
    ensures Rewinds(map[]) == map[] && Waits(map[]) == map[] && Commits(map[]) == map[]
  {
  }

  function Extended<V>(table: map<TopicPartition, V>, tp: TopicPartition, value: Option<V>): map<TopicPartition, V> {
    if value.Some? then table[tp := value.value] else table
  }

  lemma {:induction false} ConsumeNone(route: Route, policy: Policy, topic: Topic, ms: seq<Meeting>)
    ensures Consume(route, policy, topic, [], ms) == NOTHING
  {
  }

  lemma {:induction false} UnfoldAt(route: Route, policy: Policy, topic: Topic, records: seq<Record>,
      ms: seq<Meeting>, i: nat, sofar: Consumed)
    requires i < |records| <= |ms| && !Stopped(sofar)
    ensures var one := ConsumeOne(route, policy, topic, records[i], ms[i]);
            && Then(sofar, Consume(route, policy, topic, records[i..], ms[i..]))
                 == Then(Then(sofar, one), Consume(route, policy, topic, records[i + 1..], ms[i + 1..]))
            && (!Stopped(one) ==> one.pauseUntil.None? && one.commitOffset == Some(records[i].offset + 1))
            && (Stopped(one) ==> one.commitOffset.None?)
  {
    assert records[i..][1..] == records[i + 1..] && ms[i..][1..] == ms[i + 1..];
    ThenAssociates(sofar, ConsumeOne(route, policy, topic, records[i], ms[i]),
                   Consume(route, policy, topic, records[i + 1..], ms[i + 1..]));
  }

  // ---------------------------------------------------------------- refinement of the one-record machine

  /** One record of a partition, as two steps of the partition machine at most. */
  function Advance(route: Route, policy: Policy, p: Partition, m: Meeting): Partition
    requires p.batch != []
  {
    if P.TooEarly(route, p.topic, p.batch[0], m.reading) then P.Deferred(p)
    else P.Finished(route, policy, P.Started(p, m.reading), m.met)
  }

  function Drain(route: Route, policy: Policy, p: Partition, ms: seq<Meeting>): Partition
    requires |p.batch| <= |ms|
    decreases |p.batch|
  {
    if p.batch == [] then p else Drain(route, policy, Advance(route, policy, p, ms[0]), ms[1..])
  }

  /** Draining a batch is a legal run of the one-record machine. */
  lemma {:induction false} DrainIsARun(route: Route, policy: Policy, p: Partition, ms: seq<Meeting>)
    returns (actions: seq<P.Action>)
    requires P.Sorted(p.log) && |p.batch| <= |ms| && !p.inHandler
    ensures P.Legal(route, policy, p, actions)
    ensures P.Exec(route, policy, p, actions) == Drain(route, policy, p, ms)
    decreases |p.batch|
  {
    if p.batch == [] {
      actions := [];
    } else {
      var q := Advance(route, policy, p, ms[0]);
      var rest := DrainIsARun(route, policy, q, ms[1..]);
      if P.TooEarly(route, p.topic, p.batch[0], ms[0].reading) {
        actions := [P.Defer(ms[0].reading)] + rest;
        assert actions[1..] == rest;
      } else {
        var started := [P.Finish(ms[0].met)] + rest;
        assert started[1..] == rest;
        assert P.Legal(route, policy, P.Started(p, ms[0].reading), started);
        actions := [P.Start(ms[0].reading)] + started;
        assert actions[1..] == started;
      }
    }
  }

  /** And it leaves in the partition exactly what `_consume_partition` computes. */
  lemma {:induction false} DrainIsConsume(route: Route, policy: Policy, p: Partition, ms: seq<Meeting>)
    requires |p.batch| <= |ms| && !p.inHandler
    ensures var c := Consume(route, policy, p.topic, p.batch, ms);
            var q := Drain(route, policy, p, ms);
            && q.batch == [] && q.log == p.log && q.committed == p.committed
            && q.position == c.rewindTo.GetOr(p.position)
            && q.paused == (p.paused || c.pauseUntil.Some?)
            && q.pausedUntil == (if c.pauseUntil.Some? then c.pauseUntil else p.pausedUntil)
            && q.commitOffset == (if c.commitOffset.Some? then c.commitOffset else p.commitOffset)
            && q.sent == p.sent + c.sent
    decreases |p.batch|
  {
    hide Advance, ConsumeOne;
    if p.batch == [] {
      assert p.sent + [] == p.sent;
    } else {
      AdvanceIsConsumeOne(route, policy, p, ms[0]);
      DrainIsConsume(route, policy, Advance(route, policy, p, ms[0]), ms[1..]);
      var one := ConsumeOne(route, policy, p.topic, p.batch[0], ms[0]);
      Associative(p.sent, one.sent, Consume(route, policy, p.topic, p.batch[1..], ms[1..]).sent);
    }
  }

  lemma {:induction false} AdvanceIsConsumeOne(route: Route, policy: Policy, p: Partition, m: Meeting)
    requires p.batch != [] && !p.inHandler
    ensures var c := ConsumeOne(route, policy, p.topic, p.batch[0], m);
            var q := Advance(route, policy, p, m);
            && q.batch == (if Stopped(c) then [] else p.batch[1..])
            && q.log == p.log && q.committed == p.committed && q.topic == p.topic && !q.inHandler
            && q.position == c.rewindTo.GetOr(p.position)
            && q.paused == (p.paused || c.pauseUntil.Some?)
            && q.pausedUntil == (if c.pauseUntil.Some? then c.pauseUntil else p.pausedUntil)
            && q.commitOffset == (if c.commitOffset.Some? then c.commitOffset else p.commitOffset)
            && (!Stopped(c) ==> c.commitOffset.Some? && c.pauseUntil.None?)
            && q.sent == p.sent + c.sent
  {
    hide Handle, RetryDueAt, Decoded;
  }

  /** One turn of the main loop on a partition that is not paused is a legal run too, for every batch that the
      poll may return: it reads on from the position and leaves the offsets, the pause and the messages that the
      batch loop computes for those records. */
  lemma {:induction false} TurnIsARun(route: Route, policy: Policy, p: Partition, k: nat, count: nat, ms: seq<Meeting>)
    returns (actions: seq<P.Action>)
    requires P.Sorted(p.log) && p.batch == [] && !p.inHandler && p.commitOffset.None? && !p.paused
    requires 1 <= count && k + count <= |p.log| && count <= |ms|
    requires k > 0 ==> p.log[k - 1].offset < p.position
    requires p.position <= p.log[k].offset
    ensures P.Legal(route, policy, p, actions)
    ensures var c := Consume(route, policy, p.topic, p.log[k..k + count], ms);
            var q := P.Exec(route, policy, p, actions);
            && q.batch == [] && q.log == p.log && q.commitOffset.None?
            && q.position == c.rewindTo.GetOr(p.log[k + count - 1].offset + 1)
            && q.committed == c.commitOffset.GetOr(p.committed)
            && q.paused == c.pauseUntil.Some?
            && q.pausedUntil == (if c.pauseUntil.Some? then c.pauseUntil else p.pausedUntil)
            && q.sent == p.sent + c.sent
  {
    hide Consume, Drain;
    var polled := Poll(route, policy, p, k, count);
    hide P.Polled, P.Enabled, P.Next;
    var middle := DrainIsARun(route, policy, polled, ms);
    DrainIsConsume(route, policy, polled, ms);
    CommitAtTheEnd(route, policy, Drain(route, policy, polled, ms));
    P.RunsConcatenate(route, policy, polled, middle, [P.Commit]);
    actions := [P.Poll(count)] + (middle + [P.Commit]);
    assert actions[1..] == middle + [P.Commit];
  }

  lemma {:induction false} Poll(route: Route, policy: Policy, p: Partition, k: nat, count: nat) returns (polled: Partition)
    requires P.Sorted(p.log) && p.batch == [] && p.commitOffset.None? && !p.paused
    requires 1 <= count && k + count <= |p.log|
    requires k > 0 ==> p.log[k - 1].offset < p.position
    requires p.position <= p.log[k].offset
    ensures P.Enabled(route, p, P.Poll(count)) && P.Next(route, policy, p, P.Poll(count)) == polled
    ensures polled == p.(batch := p.log[k..k + count], position := p.log[k + count - 1].offset + 1)
  {
    hide P.Before;
    P.BeforeIs(p.log, p.position, k);
    polled := P.Polled(p, count);
  }

  lemma {:induction false} CommitAtTheEnd(route: Route, policy: Policy, p: Partition)
    requires P.Sorted(p.log) && p.batch == []
    ensures P.Legal(route, policy, p, [P.Commit])
    ensures P.Exec(route, policy, p, [P.Commit])
         == p.(committed := p.commitOffset.GetOr(p.committed), commitOffset := None)
  {
    var actions := [P.Commit];
    assert actions[1..] == [];
  }

  // ---------------------------------------------------------------- interleaving of the gathered partitions

  /** Partitions in the middle of a gather, each with the meetings still ahead of it. */
  datatype Gathering = Gathering(parts: map<TopicPartition, Partition>, scripts: map<TopicPartition, seq<Meeting>>)

  ghost predicate Scripted(g: Gathering) {
    g.parts.Keys == g.scripts.Keys && forall tp :: tp in g.parts ==> |g.parts[tp].batch| <= |g.scripts[tp]|
  }

  /** The scheduler lets one partition handle its next record. */
  function StepOn(route: Route, policy: Policy, g: Gathering, tp: TopicPartition): Gathering
    requires Scripted(g)
  {
    if tp !in g.parts || g.parts[tp].batch == [] then g
    else Gathering(g.parts[tp := Advance(route, policy, g.parts[tp], g.scripts[tp][0])],
                   g.scripts[tp := g.scripts[tp][1..]])
  }

  lemma {:induction false} StepKeepsScripted(route: Route, policy: Policy, g: Gathering, tp: TopicPartition)
    requires Scripted(g)
    ensures Scripted(StepOn(route, policy, g, tp))
  {
  }

  ghost function Schedule(route: Route, policy: Policy, g: Gathering, order: seq<TopicPartition>): Gathering
    requires Scripted(g)
    decreases |order|
  {
    if order == [] then g
    else
      StepKeepsScripted(route, policy, g, order[0]);
      Schedule(route, policy, StepOn(route, policy, g, order[0]), order[1..])
  }

  ghost predicate AllDone(g: Gathering) {
    forall tp :: tp in g.parts ==> g.parts[tp].batch == []
  }

  /** Every partition drained on its own, as if the others did not exist. */
  function OneByOne(route: Route, policy: Policy, g: Gathering): map<TopicPartition, Partition>
    requires Scripted(g)
  {
    map tp | tp in g.parts :: Drain(route, policy, g.parts[tp], g.scripts[tp])
  }

  lemma {:induction false} StepKeepsOutcome(route: Route, policy: Policy, g: Gathering, tp: TopicPartition)
    requires Scripted(g)
    ensures Scripted(StepOn(route, policy, g, tp))
    ensures OneByOne(route, policy, StepOn(route, policy, g, tp)) == OneByOne(route, policy, g)
  {
    StepKeepsScripted(route, policy, g, tp);
  }

  /** Whatever order the event loop picks, a finished gather leaves every partition with the position, pause
      and commit offset it would have reached had the partitions been run one after another. */
  lemma {:induction false} EveryInterleavingAgrees(route: Route, policy: Policy, g: Gathering,
      order: seq<TopicPartition>)
    requires Scripted(g)
    requires AllDone(Schedule(route, policy, g, order))
    ensures Schedule(route, policy, g, order).parts == OneByOne(route, policy, g)
    decreases |order|
  {
    if order != [] {
      StepKeepsOutcome(route, policy, g, order[0]);
      EveryInterleavingAgrees(route, policy, StepOn(route, policy, g, order[0]), order[1..]);
    }
  }
}
