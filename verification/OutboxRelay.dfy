/** The relay's loop over sessions, and how fast it empties the table. */
module OutboxRelay {
  import opened Prelude
  import opened Domain
  import opened Headers
  import opened JobRepository
  import opened Attempts
  import opened MessageHandler
  import opened OutboxTable
  import Relays = OutboxRelays

  /** How many sends succeed before the first that raises. */
  function Successes(faults: seq<SendFault>, n: nat): (k: nat)
    requires n <= |faults|
    ensures k <= n
    ensures forall i :: 0 <= i < k ==> faults[i].Delivered?
    ensures k < n ==> !faults[k].Delivered?
  {
    if n == 0 || !faults[0].Delivered? then 0 else 1 + Successes(faults[1..], n - 1)
  }

  lemma {:induction false} SuccessesIs(faults: seq<SendFault>, n: nat, k: nat)
    requires k <= n <= |faults|
    requires forall i :: 0 <= i < k ==> faults[i].Delivered?
    requires k < n ==> !faults[k].Delivered?
    ensures Successes(faults, n) == k
  {
  }

  /** Outbox rows carry no headers. */
  function DeliveryOf(row: OutboxRow): Delivery {
    Delivery(row.topic, None, row.message)
  }

  function Deliveries(rows: seq<OutboxRow>, ids: seq<nat>): seq<Delivery>
    requires forall i :: 0 <= i < |ids| ==> ids[i] < |rows|
  {
    seq(|ids|, i requires 0 <= i < |ids| => DeliveryOf(rows[ids[i]]))
  }

  /** Each row goes to its own topic with its own message, and without headers. */
  lemma {:induction false} DeliveriesMatchRows(rows: seq<OutboxRow>, ids: seq<nat>)
    requires forall i :: 0 <= i < |ids| ==> ids[i] < |rows|
    ensures |Deliveries(rows, ids)| == |ids|
    ensures forall i :: 0 <= i < |ids| ==>
              Deliveries(rows, ids)[i] == Delivery(rows[ids[i]].topic, None, rows[ids[i]].message)
  {
  }

  type Positive = n: nat | n >= 1 witness 1

  class Relay {
    const batchSize: Positive
    const db: Database
    const publisher: Publisher

    constructor (db: Database, publisher: Publisher, batchSize: int)
      ensures this.db == db && this.publisher == publisher
      ensures this.batchSize == if batchSize > 1 then batchSize else 1
    {
      this.db, this.publisher := db, publisher;
      this.batchSize := if batchSize > 1 then batchSize else 1;
    }

    method SendRow(row: OutboxRow, fault: SendFault) returns (raised: bool)
      modifies publisher
      ensures raised <==> !fault.Delivered?
      ensures publisher.log == old(publisher.log) + if fault.NotDelivered? then [] else [DeliveryOf(row)]
    {
      raised := publisher.Publish(row.topic, row.message, [], fault);
    }

    /** One drain by a relay that is alone. It sends the first pending rows in id order up to the first send
        that raises, then commits both updates at once. A lost commit leaves the table as it was; a commit
        that takes effect may still raise, and then the count is lost, not the marks. */
    method DrainOnce(faults: seq<SendFault>, commit: CommitFault) returns (published: nat, raised: bool)
      requires batchSize <= |faults|
      modifies db, publisher
      ensures raised <==> !commit.CommitOk?
      ensures var rows := old(db.tables.outbox);
              var batch := FetchPending(rows, {}, batchSize);
              && |batch| <= batchSize
              && (forall i :: 0 <= i < |batch| ==> batch[i] < |rows|)
              && var n := Successes(faults, |batch|);
                 && published == (if raised then 0 else n)
                 && db.tables == (if commit.CommitLost? || batch == [] then old(db.tables)
                                  else old(db.tables).(outbox := Relays.Settle(rows, Relays.Drain(batch, n, n < |batch|))))
                 && publisher.log == old(publisher.log) + Deliveries(rows, batch[..n])
                      + (if n < |batch| && faults[n].DeliveredButRaised? then [DeliveryOf(rows[batch[n]])] else [])
    {
      var session := db.Begin();
      ghost var rows := session.tables.outbox;
      FetchPicksTheFirst(session.tables.outbox, {}, batchSize, 0);
      var batch := FetchPending(session.tables.outbox, {}, batchSize);
      hide FetchPending, MarkFailed, MarkPublished, Deliveries, DeliveryOf, Successes, Increasing;
      NothingDelivered(rows);
      if batch == [] {
        assert batch[..0] == [];
        return 0, !commit.CommitOk?;
      }
      assert batch[..0] == [];
      var sent := 0;
      var failed := false;
      while sent < |batch| && !failed
        invariant sent <= |batch|
        invariant forall i :: 0 <= i < sent ==> faults[i].Delivered?
        invariant failed ==> sent < |batch| && !faults[sent].Delivered?
        invariant session.tables == old(db.tables).(
                    outbox := if failed then MarkFailed(rows, batch[sent]) else rows)
        invariant publisher.log == old(publisher.log) + Deliveries(rows, batch[..sent])
                    + (if failed && faults[sent].DeliveredButRaised? then [DeliveryOf(rows[batch[sent]])] else [])
        invariant db.tables == old(db.tables)
        decreases |batch| - sent, !failed
      {
        var row := session.tables.outbox[batch[sent]];
        failed := SendRow(row, faults[sent]);
        if failed {
          session.tables := session.tables.(outbox := MarkFailed(session.tables.outbox, batch[sent]));
        } else {
          DeliveriesStep(rows, batch, sent);
          Associative(old(publisher.log), Deliveries(rows, batch[..sent]), [DeliveryOf(row)]);
          sent := sent + 1;
        }
      }
      SuccessesIs(faults, |batch|, sent);
      session.tables := session.tables.(outbox := MarkPublished(session.tables.outbox, batch[..sent]));
      if commit.CommitLost? {
        return 0, true;
      }
      db.Commit(session);
      raised := !commit.CommitOk?;
      published := if raised then 0 else sent;
    }

    /** A drain whose sends all succeed. */
    method DrainCleanly() returns (published: nat)
      modifies db, publisher
      ensures published == |FetchPending(old(db.tables.outbox), {}, batchSize)|
      ensures forall i :: 0 <= i < published ==>
                FetchPending(old(db.tables.outbox), {}, batchSize)[i] < |old(db.tables.outbox)|
      ensures published == 0 ==> db.tables == old(db.tables)
      ensures published != 0 ==>
                db.tables == old(db.tables).(outbox := Clean(old(db.tables.outbox), batchSize))
      ensures publisher.log == old(publisher.log)
                + Deliveries(old(db.tables.outbox), FetchPending(old(db.tables.outbox), {}, batchSize))
    {
      hide FetchPending, MarkPublished;
      ghost var batch := FetchPending(db.tables.outbox, {}, batchSize);
      var raised;
      published, raised := DrainOnce(seq(batchSize, _ => Delivered), CommitOk);
      SuccessesIs(seq(batchSize, _ => Delivered), |batch|, |batch|);
      assert batch[..|batch|] == batch;
    }

    /** The loop while there is something to send, with a publisher that does not fail and no new rows: every
        pending row goes out exactly once, in id order, and nothing stays pending. */
    method DrainUntilIdle()
      modifies db, publisher
      ensures Pending(db.tables.outbox, 0) == []
      ensures SameMessages(old(db.tables.outbox), db.tables.outbox)
      ensures publisher.log == old(publisher.log) + Deliveries(old(db.tables.outbox), Pending(old(db.tables.outbox), 0))
    {
      hide Halfway;
      ghost var rows := db.tables.outbox;
      ghost var drained: seq<nat> := [];
      HalfwayStart(rows, publisher.log);
      var published := 1;
      while published != 0
        invariant Halfway(rows, db.tables.outbox, drained, old(publisher.log), publisher.log)
        invariant published == 0 ==> Pending(db.tables.outbox, 0) == []
        decreases |Pending(db.tables.outbox, 0)|, published
      {
        ghost var now := db.tables.outbox;
        CleanDrainTakesThePrefix(now, batchSize);
        HalfwayStep(rows, now, batchSize, drained, old(publisher.log), publisher.log);
        published := DrainCleanly();
        drained := drained + FetchPending(now, {}, batchSize);
      }
      HalfwayEnd(rows, db.tables.outbox, drained, old(publisher.log), publisher.log);
    }
  }

  // ---------------------------------------------------------------- a drain as steps of the machine

  /** What is left of an open transaction once every send has had its turn: the commit, or its loss. */
  function Closing(relay: Relays.RelayId, commit: CommitFault): Relays.Action {
    if commit.CommitLost? then Relays.Abort(relay) else Relays.Commit(relay)
  }

  lemma {:induction false} CloseDrain(s: Relays.State, relay: Relays.RelayId, commit: CommitFault)
    returns (actions: seq<Relays.Action>)
    requires relay in s.drains && !Relays.Sending(s.drains[relay]) && s.drains[relay].sent <= |s.drains[relay].batch|
    ensures Relays.Legal(s, actions)
    ensures var t := Relays.Exec(s, actions);
            && t.rows == (if commit.CommitLost? then s.rows else Relays.Settle(s.rows, s.drains[relay]))
            && t.log == s.log && t.drains == s.drains - {relay}
  {
    hide Relays.Settle;
    actions := [Closing(relay, commit)];
    assert actions[1..] == [];
  }

  lemma {:induction false} FirstThen(s: Relays.State, action: Relays.Action, rest: seq<Relays.Action>)
    returns (actions: seq<Relays.Action>)
    requires Relays.Enabled(s, action) && Relays.Legal(Relays.Next(s, action), rest)
    ensures Relays.Legal(s, actions) && Relays.Exec(s, actions) == Relays.Exec(Relays.Next(s, action), rest)
  {
    hide Relays.Enabled, Relays.Next;
    actions := [action] + rest;
    assert actions[1..] == rest;
  }

  lemma {:induction false} SendStep(s: Relays.State, relay: Relays.RelayId)
    requires relay in s.drains && Relays.Sending(s.drains[relay])
    ensures Relays.Enabled(s, Relays.Send(relay))
    ensures var d, t := s.drains[relay], Relays.Next(s, Relays.Send(relay));
            && t.rows == s.rows && t.log == s.log + [d.batch[d.sent]]
            && relay in t.drains && t.drains[relay] == d.(sent := d.sent + 1)
            && t.drains - {relay} == s.drains - {relay}
  {
  }

  lemma {:induction false} SendFailsStep(s: Relays.State, relay: Relays.RelayId, delivered: bool)
    requires relay in s.drains && Relays.Sending(s.drains[relay])
    ensures Relays.Enabled(s, Relays.SendFails(relay, delivered))
    ensures var d, t := s.drains[relay], Relays.Next(s, Relays.SendFails(relay, delivered));
            && t.rows == s.rows && t.log == s.log + (if delivered then [d.batch[d.sent]] else [])
            && relay in t.drains && t.drains[relay] == d.(failed := true)
            && t.drains - {relay} == s.drains - {relay}
  {
  }

  lemma {:induction false} OneMoreSent(log: seq<nat>, batch: seq<nat>, sent: nat, n: nat)
    requires sent < n <= |batch|
    ensures (log + [batch[sent]]) + batch[sent + 1..n] == log + batch[sent..n]
  {
    assert batch[sent..n] == [batch[sent]] + batch[sent + 1..n];
  }

  lemma {:induction false} SendOn(s: Relays.State, relay: Relays.RelayId, faults: seq<SendFault>, commit: CommitFault)
    returns (actions: seq<Relays.Action>)
    requires relay in s.drains && !s.drains[relay].failed
    requires s.drains[relay].sent <= |s.drains[relay].batch| <= |faults|
    requires forall i :: 0 <= i < s.drains[relay].sent ==> faults[i].Delivered?
    ensures Relays.Legal(s, actions)
    ensures var t, d := Relays.Exec(s, actions), s.drains[relay];
            var n := Successes(faults, |d.batch|);
            && d.sent <= n
            && t.rows == (if commit.CommitLost? then s.rows
                          else Relays.Settle(s.rows, Relays.Drain(d.batch, n, n < |d.batch|)))
            && t.log == s.log + d.batch[d.sent..n]
                 + (if n < |d.batch| && faults[n].DeliveredButRaised? then [d.batch[n]] else [])
            && t.drains == s.drains - {relay}
    decreases |s.drains[relay].batch| - s.drains[relay].sent
  {
    hide Relays.Settle, Relays.Legal, Relays.Exec, Relays.Enabled, Relays.Next, Successes;
    var d := s.drains[relay];
    if d.sent == |d.batch| {
      SuccessesIs(faults, |d.batch|, d.sent);
      actions := CloseDrain(s, relay, commit);
      assert d.batch[d.sent..] == [];
    } else if !faults[d.sent].Delivered? {
      SuccessesIs(faults, |d.batch|, d.sent);
      var action := Relays.SendFails(relay, faults[d.sent].DeliveredButRaised?);
      SendFailsStep(s, relay, faults[d.sent].DeliveredButRaised?);
      actions := CloseDrain(Relays.Next(s, action), relay, commit);
      actions := FirstThen(s, action, actions);
      assert d.batch[d.sent..d.sent] == [];
    } else {
      SendStep(s, relay);
      var t := Relays.Next(s, Relays.Send(relay));
      actions := SendOn(t, relay, faults, commit);
      actions := FirstThen(s, Relays.Send(relay), actions);
      var n := Successes(faults, |d.batch|);
      OneMoreSent(s.log, d.batch, d.sent, n);
    }
  }

  /** What `DrainOnce` does to table and topics is a run of the machine of relays, whatever its batch size and
      whatever the other relays have locked. */
  lemma {:induction false} DrainIsARun(s: Relays.State, relay: Relays.RelayId, limit: Positive,
      faults: seq<SendFault>, commit: CommitFault) returns (actions: seq<Relays.Action>)
    requires relay !in s.drains && limit <= |faults|
    ensures Relays.Legal(s, actions)
    ensures var batch, t := FetchPending(s.rows, Relays.Locked(s), limit), Relays.Exec(s, actions);
            && |batch| <= limit
            && var n := Successes(faults, |batch|);
            && t.rows == (if commit.CommitLost? || batch == [] then s.rows
                          else Relays.Settle(s.rows, Relays.Drain(batch, n, n < |batch|)))
            && t.log == s.log + batch[..n]
                 + (if n < |batch| && faults[n].DeliveredButRaised? then [batch[n]] else [])
            && t.drains == s.drains
  {
    var batch := FetchPending(s.rows, Relays.Locked(s), limit);
    FetchPicksTheFirst(s.rows, Relays.Locked(s), limit, 0);
    hide FetchPending, Relays.Settle, Relays.Legal, Relays.Exec, Successes, Relays.Locked;
    if batch == [] {
      actions := [];
      Stays(s);
      assert batch[..Successes(faults, |batch|)] == [];
    } else {
      var begin := Relays.Begin(relay, limit);
      var t := Relays.Next(s, begin);
      actions := SendOn(t, relay, faults, commit);
      assert t.drains - {relay} == s.drains;
      actions := FirstThen(s, begin, actions);
      assert batch[0..Successes(faults, |batch|)] == batch[..Successes(faults, |batch|)];
    }
  }

  lemma {:induction false} Stays(s: Relays.State)
    ensures Relays.Legal(s, []) && Relays.Exec(s, []) == s
  {
  }

  /** Some rows have been drained, the rest are still pending, and the log says so. */
  ghost predicate Halfway(rows: seq<OutboxRow>, now: seq<OutboxRow>, drained: seq<nat>, before: seq<Delivery>, log: seq<Delivery>) {
    && SameMessages(rows, now)
    && Pending(rows, 0) == drained + Pending(now, 0)
    && (forall i :: 0 <= i < |drained| ==> drained[i] < |rows|)
    && log == before + Deliveries(rows, drained)
  }

  lemma {:induction false} HalfwayStart(rows: seq<OutboxRow>, log: seq<Delivery>)
    ensures Halfway(rows, rows, [], log, log)
  {
    assert Deliveries(rows, []) == [];
    assert [] + Pending(rows, 0) == Pending(rows, 0);
  }

  lemma {:induction false} HalfwayStep(rows: seq<OutboxRow>, now: seq<OutboxRow>, batchSize: nat, drained: seq<nat>,
      before: seq<Delivery>, log: seq<Delivery>)
    requires Halfway(rows, now, drained, before, log)
    ensures var batch := FetchPending(now, {}, batchSize);
            && (forall i :: 0 <= i < |batch| ==> batch[i] < |now|)
            && Halfway(rows, Clean(now, batchSize), drained + batch, before, log + Deliveries(now, batch))
            && (batch == [] ==> Halfway(rows, now, drained + batch, before, log + Deliveries(now, batch)))
  {
    hide FetchPending, Pending, Deliveries;
    var batch := FetchPending(now, {}, batchSize);
    CleanDrainTakesThePrefix(now, batchSize);
    FetchInRange(now, batchSize);
    DeliveriesJoin(rows, now, drained, batch);
    Associative(before, Deliveries(rows, drained), Deliveries(now, batch));
    Associative(drained, batch, Pending(Clean(now, batchSize), 0));
    if batch == [] {
      assert drained + batch == drained;
    }
  }

  lemma {:induction false} FetchInRange(rows: seq<OutboxRow>, limit: nat)
    ensures forall i :: 0 <= i < |FetchPending(rows, {}, limit)| ==> FetchPending(rows, {}, limit)[i] < |rows|
  {
    FetchPicksTheFirst(rows, {}, limit, 0);
  }

  lemma {:induction false} HalfwayEnd(rows: seq<OutboxRow>, now: seq<OutboxRow>, drained: seq<nat>,
      before: seq<Delivery>, log: seq<Delivery>)
    requires Halfway(rows, now, drained, before, log) && Pending(now, 0) == []
    ensures SameMessages(rows, now) && log == before + Deliveries(rows, Pending(rows, 0))
  {
    assert drained == Pending(rows, 0);
  }

  lemma {:induction false} DeliveriesStep(rows: seq<OutboxRow>, batch: seq<nat>, sent: nat)
    requires sent < |batch| && forall i :: 0 <= i < |batch| ==> batch[i] < |rows|
    ensures Deliveries(rows, batch[..sent + 1]) == Deliveries(rows, batch[..sent]) + [DeliveryOf(rows[batch[sent]])]
  {
  }

  lemma {:induction false} NothingDelivered(rows: seq<OutboxRow>)
    ensures Deliveries(rows, []) == [] && SameMessages(rows, rows)
  {
  }

  lemma {:induction false} DeliveriesJoin(rows: seq<OutboxRow>, now: seq<OutboxRow>, first: seq<nat>, rest: seq<nat>)
    requires SameMessages(rows, now)
    requires forall i :: 0 <= i < |first| ==> first[i] < |rows|
    requires forall i :: 0 <= i < |rest| ==> rest[i] < |rows|
    ensures forall i :: 0 <= i < |first + rest| ==> (first + rest)[i] < |rows|
    ensures Deliveries(rows, first + rest) == Deliveries(rows, first) + Deliveries(now, rest)
  {
  }

  // ---------------------------------------------------------------- progress

  /** The pending rows from `at` on, in id order. */
  function Pending(rows: seq<OutboxRow>, at: nat): (ids: seq<nat>)
    ensures forall i :: 0 <= i < |ids| ==> at <= ids[i] < |rows| && !rows[ids[i]].published
    decreases |rows| - at
  {
    if at >= |rows| then []
    else if rows[at].published then Pending(rows, at + 1)
    else [at] + Pending(rows, at + 1)
  }

  ghost predicate SameMessages(a: seq<OutboxRow>, b: seq<OutboxRow>) {
    |a| == |b| && forall r :: 0 <= r < |a| ==> a[r].topic == b[r].topic && a[r].message == b[r].message
  }

  /** The table after a drain in which every send succeeds. */
  function Clean(rows: seq<OutboxRow>, batchSize: nat): seq<OutboxRow> {
    MarkPublished(rows, FetchPending(rows, {}, batchSize))
  }

  lemma {:induction false} FetchUnfolds(rows: seq<OutboxRow>, limit: nat, at: nat)
    requires at < |rows|
    ensures FetchFrom(rows, {}, limit, at)
         == if limit == 0 then []
            else if rows[at].published then FetchFrom(rows, {}, limit, at + 1)
            else [at] + FetchFrom(rows, {}, limit - 1, at + 1)
    ensures limit == 0 ==> FetchFrom(rows, {}, limit, at + 1) == []
  {
  }

  lemma {:induction false} PendingUnfolds(rows: seq<OutboxRow>, at: nat)
    requires at < |rows|
    ensures Pending(rows, at) == if rows[at].published then Pending(rows, at + 1) else [at] + Pending(rows, at + 1)
  {
  }

  /** From row `at` on, what is published after marking `ids` is what was published before, and `ids`. */
  ghost predicate MarksFrom(rows: seq<OutboxRow>, after: seq<OutboxRow>, ids: seq<nat>, at: nat) {
    && |after| == |rows|
    && forall r :: at <= r < |rows| ==> (after[r].published <==> rows[r].published || r in ids)
  }

  lemma {:induction false} MarksFromNext(rows: seq<OutboxRow>, after: seq<OutboxRow>, ids: seq<nat>, at: nat)
    requires at < |rows|
    requires MarksFrom(rows, after, ids, at) || MarksFrom(rows, after, [at] + ids, at)
    ensures MarksFrom(rows, after, ids, at + 1) && |after| == |rows|
    ensures MarksFrom(rows, after, [at] + ids, at) ==> after[at].published
    ensures MarksFrom(rows, after, ids, at) && at !in ids ==> (after[at].published <==> rows[at].published)
  {
    assert at in [at] + ids;
  }

  lemma {:induction false} FetchEnds(rows: seq<OutboxRow>, after: seq<OutboxRow>, limit: nat, at: nat)
    requires at >= |rows| == |after|
    ensures Pending(rows, at) == FetchFrom(rows, {}, limit, at) + Pending(after, at)
  {
  }

  lemma {:induction false} FetchIsLater(rows: seq<OutboxRow>, limit: nat, at: nat)
    ensures at !in FetchFrom(rows, {}, limit, at + 1)
  {
    FetchPicksTheFirst(rows, {}, limit, at + 1);
  }

  lemma {:induction false} FetchSplitsPending(rows: seq<OutboxRow>, after: seq<OutboxRow>, limit: nat, at: nat)
    requires MarksFrom(rows, after, FetchFrom(rows, {}, limit, at), at)
    ensures Pending(rows, at) == FetchFrom(rows, {}, limit, at) + Pending(after, at)
    decreases |rows| - at
  {
    SameLength(rows, after, limit, at);
    hide FetchFrom, Pending, MarksFrom;
    if at >= |rows| {
      FetchEnds(rows, after, limit, at);
    } else {
      var next := if limit > 0 && !rows[at].published then limit - 1 else limit;
      var rest := FetchFrom(rows, {}, next, at + 1);
      FetchUnfolds(rows, limit, at);
      FetchIsLater(rows, next, at);
      MarksFromNext(rows, after, rest, at);
      FetchSplitsPending(rows, after, next, at + 1);
      PendingUnfolds(rows, at);
      PendingUnfolds(after, at);
      Associative([at], rest, Pending(after, at + 1));
    }
  }

  lemma {:induction false} SameLength(rows: seq<OutboxRow>, after: seq<OutboxRow>, limit: nat, at: nat)
    requires MarksFrom(rows, after, FetchFrom(rows, {}, limit, at), at)
    ensures |after| == |rows|
  {
  }

  lemma {:induction false} FetchLength(rows: seq<OutboxRow>, limit: nat, at: nat)
    ensures |FetchFrom(rows, {}, limit, at)| ==
              if |Pending(rows, at)| < limit then |Pending(rows, at)| else limit
    decreases |rows| - at
  {
    if at < |rows| {
      FetchLength(rows, if limit > 0 && !rows[at].published then limit - 1 else limit, at + 1);
    }
  }

  /** A drain without failures publishes the first `batchSize` pending rows, in order, and leaves the rest. */
  lemma {:induction false} CleanDrainTakesThePrefix(rows: seq<OutboxRow>, batchSize: nat)
    ensures var batch := FetchPending(rows, {}, batchSize);
            && Pending(rows, 0) == batch + Pending(Clean(rows, batchSize), 0)
            && |batch| == (if |Pending(rows, 0)| < batchSize then |Pending(rows, 0)| else batchSize)
            && SameMessages(rows, Clean(rows, batchSize))
  {
    FetchSplitsPending(rows, Clean(rows, batchSize), batchSize, 0);
    FetchLength(rows, batchSize, 0);
  }

  function AfterDrains(rows: seq<OutboxRow>, batchSize: nat, drains: nat): seq<OutboxRow>
    decreases drains
  {
    if drains == 0 then rows else AfterDrains(Clean(rows, batchSize), batchSize, drains - 1)
  }

  /** The rows published by a number of drains, in order. */
  function PublishedBy(rows: seq<OutboxRow>, batchSize: nat, drains: nat): seq<nat>
    decreases drains
  {
    if drains == 0 then []
    else FetchPending(rows, {}, batchSize) + PublishedBy(Clean(rows, batchSize), batchSize, drains - 1)
  }

  /** What a number of full batches hold. */
  function Capacity(batchSize: nat, drains: nat): nat {
    if drains == 0 then 0 else batchSize + Capacity(batchSize, drains - 1)
  }

  lemma {:induction false} CapacityIsProduct(batchSize: nat, drains: nat)
    ensures Capacity(batchSize, drains) == drains * batchSize
  {
    if drains > 0 {
      CapacityIsProduct(batchSize, drains - 1);
      assert drains * batchSize == (drains - 1) * batchSize + batchSize;
    }
  }

  /** Each drain takes a full batch off the backlog, or empties it. */
  lemma {:induction false} BacklogShrinks(rows: seq<OutboxRow>, batchSize: nat, drains: nat)
    ensures Pending(rows, 0) == PublishedBy(rows, batchSize, drains) + Pending(AfterDrains(rows, batchSize, drains), 0)
    ensures |Pending(AfterDrains(rows, batchSize, drains), 0)| ==
              var left := |Pending(rows, 0)| - Capacity(batchSize, drains); if left > 0 then left else 0
    decreases drains
  {
    hide FetchPending, Pending, Clean;
    if drains > 0 {
      var next := Clean(rows, batchSize);
      CleanDrainTakesThePrefix(rows, batchSize);
      BacklogShrinks(next, batchSize, drains - 1);
      Associative(FetchPending(rows, {}, batchSize), PublishedBy(next, batchSize, drains - 1),
                  Pending(AfterDrains(next, batchSize, drains - 1), 0));
    } else {
      assert [] + Pending(rows, 0) == Pending(rows, 0);
    }
  }

  /** ceil(n / batchSize) drains publish all n pending rows, in id order, exactly once, and one drain fewer
      leaves some behind. */
  lemma {:induction false} CeilingManyDrainsSuffice(rows: seq<OutboxRow>, batchSize: nat)
    requires batchSize >= 1
    ensures var n := |Pending(rows, 0)|;
            var drains := (n + batchSize - 1) / batchSize;
            && PublishedBy(rows, batchSize, drains) == Pending(rows, 0)
            && Pending(AfterDrains(rows, batchSize, drains), 0) == []
            && (n > 0 ==> Pending(AfterDrains(rows, batchSize, drains - 1), 0) != [])
  {
    hide PublishedBy, Pending, AfterDrains, Capacity;
    var drains := Ceiling(|Pending(rows, 0)|, batchSize);
    BacklogShrinks(rows, batchSize, drains);
    if |Pending(rows, 0)| > 0 {
      BacklogShrinks(rows, batchSize, drains - 1);
    }
  }

  lemma {:induction false} Ceiling(n: nat, b: nat) returns (c: nat)
    requires b >= 1
    ensures c == (n + b - 1) / b
    ensures Capacity(b, c) >= n && (n > 0 ==> c >= 1 && Capacity(b, c - 1) < n)
  {
    c := (n + b - 1) / b;
    CapacityIsProduct(b, c);
    if n > 0 {
      CapacityIsProduct(b, c - 1);
      assert (c - 1) * b == c * b - b;
    }
  }
}
