/** The outbox table, its statements, and any number of relays draining it. Row ids are list positions. */
module OutboxTable {
  import opened Prelude
  import opened Domain

  predicate PendingAt(rows: seq<OutboxRow>, locked: set<nat>, r: nat) {
    r < |rows| && !rows[r].published && r !in locked
  }

  /** SELECT ... WHERE status = 'PENDING' ORDER BY id LIMIT n FOR UPDATE SKIP LOCKED, from row `at` on. */
  function FetchFrom(rows: seq<OutboxRow>, locked: set<nat>, limit: nat, at: nat): seq<nat>
    decreases |rows| - at
  {
    if at >= |rows| || limit == 0 then []
    else if PendingAt(rows, locked, at) then [at] + FetchFrom(rows, locked, limit - 1, at + 1)
    else FetchFrom(rows, locked, limit, at + 1)
  }

  function FetchPending(rows: seq<OutboxRow>, locked: set<nat>, limit: nat): seq<nat> {
    FetchFrom(rows, locked, limit, 0)
  }

  ghost predicate Increasing(ids: seq<nat>) {
    forall i, j :: 0 <= i < j < |ids| ==> ids[i] < ids[j]
  }

  /** The fetch picks pending, unlocked rows in id order, at most as many as asked for. */
  lemma {:induction false} FetchPicksTheFirst(rows: seq<OutboxRow>, locked: set<nat>, limit: nat, at: nat)
    ensures var ids := FetchFrom(rows, locked, limit, at);
            && |ids| <= limit && Increasing(ids)
            && (forall i :: 0 <= i < |ids| ==>
                  at <= ids[i] < |rows| && !rows[ids[i]].published && ids[i] !in locked)
    decreases |rows| - at
  {
    if at < |rows| && limit > 0 {
      if PendingAt(rows, locked, at) {
        FetchPicksTheFirst(rows, locked, limit - 1, at + 1);
      } else {
        FetchPicksTheFirst(rows, locked, limit, at + 1);
      }
    }
  }

  /** It passes over no eligible row before the last one it picks, and stops short of its limit only when no
      eligible row is left. */
  lemma {:induction false} FetchSkipsNone(rows: seq<OutboxRow>, locked: set<nat>, limit: nat, at: nat, r: nat)
    requires at <= r < |rows| && !rows[r].published && r !in locked
    ensures var ids := FetchFrom(rows, locked, limit, at);
            r in ids || (|ids| == limit && forall i :: 0 <= i < |ids| ==> ids[i] < r)
    decreases |rows| - at
  {
    if limit > 0 {
      if PendingAt(rows, locked, at) {
        if r != at {
          FetchSkipsNone(rows, locked, limit - 1, at + 1, r);
          assert r in FetchFrom(rows, locked, limit - 1, at + 1) ==> r in FetchFrom(rows, locked, limit, at);
        }
      } else {
        FetchSkipsNone(rows, locked, limit, at + 1, r);
      }
    }
  }

  /** UPDATE ... SET status = 'PUBLISHED' WHERE id IN ids. */
  function MarkPublished(rows: seq<OutboxRow>, ids: seq<nat>): (after: seq<OutboxRow>)
    ensures |after| == |rows|
  {
    seq(|rows|, r requires 0 <= r < |rows| => if r in ids then rows[r].(published := true) else rows[r])
  }

  /** UPDATE ... SET attempts = attempts + 1 WHERE id = the failed one; the status stays PENDING. */
  function MarkFailed(rows: seq<OutboxRow>, id: nat): (after: seq<OutboxRow>)
    ensures |after| == |rows|
  {
    if id < |rows| then rows[id := rows[id].(attempts := rows[id].attempts + 1)] else rows
  }
}

/** Relays as a transition system. */
module OutboxRelays {
  import opened Prelude
  import opened Domain
  import opened OutboxTable

  type RelayId = nat

  /** An open transaction: the rows it locked, how many it has sent, and whether a send failed. */
  datatype Drain = Drain(batch: seq<nat>, sent: nat, failed: bool)

  /** `log` is what reached the topics, in order. The last three are histories: sends of drains that were
      aborted, failed sends that were delivered all the same, and failed sends whose drain committed. */
  datatype State = State(
    rows: seq<OutboxRow>,
    drains: map<RelayId, Drain>,
    log: seq<nat>,
    aborted: seq<nat>,
    strays: seq<nat>,
    failures: seq<nat>)

  const INITIAL := State([], map[], [], [], [], [])

  datatype Action =
    | Insert(topic: Topic, message: Message)
    | Begin(relay: RelayId, limit: nat)
    | Send(relay: RelayId)
    | SendFails(relay: RelayId, delivered: bool)
    | Commit(relay: RelayId)
    | Abort(relay: RelayId)

  function Locked(s: State): set<nat> {
    set relay, r | relay in s.drains && r in s.drains[relay].batch :: r
  }

  predicate Sending(d: Drain) {
    !d.failed && d.sent < |d.batch|
  }

  predicate Enabled(s: State, action: Action) {
    match action
    case Insert(_, _) => true
    case Begin(relay, limit) =>
      relay !in s.drains && limit >= 1 && FetchPending(s.rows, Locked(s), limit) != []
    case Send(relay) => relay in s.drains && Sending(s.drains[relay])
    case SendFails(relay, _) => relay in s.drains && Sending(s.drains[relay])
    case Commit(relay) => relay in s.drains && !Sending(s.drains[relay]) && s.drains[relay].sent <= |s.drains[relay].batch|
    case Abort(relay) => relay in s.drains && s.drains[relay].sent <= |s.drains[relay].batch|
  }

  /** The transaction's two updates. */
  function Settle(rows: seq<OutboxRow>, d: Drain): seq<OutboxRow>
    requires d.sent <= |d.batch|
  {
    var marked := if d.failed && d.sent < |d.batch| then MarkFailed(rows, d.batch[d.sent]) else rows;
    MarkPublished(marked, d.batch[..d.sent])
  }

  function Next(s: State, action: Action): State
    requires Enabled(s, action)
  {
    match action
    case Insert(topic, message) => s.(rows := s.rows + [OutboxRow(topic, message, false, 0)])
    case Begin(relay, limit) =>
      s.(drains := s.drains[relay := Drain(FetchPending(s.rows, Locked(s), limit), 0, false)])
    case Send(relay) =>
      var d := s.drains[relay];
      s.(drains := s.drains[relay := d.(sent := d.sent + 1)], log := s.log + [d.batch[d.sent]])
    case SendFails(relay, delivered) =>
      var d := s.drains[relay];
      s.(drains := s.drains[relay := d.(failed := true)],
         log := if delivered then s.log + [d.batch[d.sent]] else s.log,
         strays := if delivered then s.strays + [d.batch[d.sent]] else s.strays)
    case Commit(relay) =>
      var d := s.drains[relay];
      s.(rows := Settle(s.rows, d), drains := s.drains - {relay},
         failures := if d.failed && d.sent < |d.batch| then s.failures + [d.batch[d.sent]] else s.failures)
    case Abort(relay) =>
      var d := s.drains[relay];
      s.(drains := s.drains - {relay}, aborted := s.aborted + d.batch[..d.sent])
  }

  // ---------------------------------------------------------------- invariant

  ghost predicate DrainOk(rows: seq<OutboxRow>, d: Drain) {
    && Increasing(d.batch) && d.sent <= |d.batch| && (d.failed ==> d.sent < |d.batch|)
    && (forall i :: 0 <= i < |d.batch| ==> d.batch[i] < |rows| && !rows[d.batch[i]].published)
  }

  ghost predicate Disjoint(a: Drain, b: Drain) {
    forall r :: r in a.batch ==> r !in b.batch
  }

  ghost predicate DrainsOk(s: State) {
    && (forall relay :: relay in s.drains ==> DrainOk(s.rows, s.drains[relay]))
    && (forall p, q :: p in s.drains && q in s.drains && p != q ==> Disjoint(s.drains[p], s.drains[q]))
  }

  function Times(xs: seq<nat>, r: nat): nat {
    multiset(xs)[r]
  }

  ghost predicate SentOpenly(s: State, r: nat) {
    exists relay :: relay in s.drains && s.drains[relay].sent <= |s.drains[relay].batch|
                    && r in s.drains[relay].batch[..s.drains[relay].sent]
  }

  /** Conservation for one row: every delivery is accounted for exactly once. */
  ghost predicate Balanced(s: State, r: nat)
    requires r < |s.rows|
  {
    && Times(s.log, r) == Times(s.aborted, r) + Times(s.strays, r)
                          + (if SentOpenly(s, r) then 1 else 0) + (if s.rows[r].published then 1 else 0)
    && s.rows[r].attempts == Times(s.failures, r)
  }

  ghost predicate Known(s: State) {
    && (forall r :: r in s.log ==> r < |s.rows|)
    && (forall r :: r in s.aborted ==> r < |s.rows|)
    && (forall r :: r in s.strays ==> r < |s.rows|)
    && (forall r :: r in s.failures ==> r < |s.rows|)
  }

  ghost predicate Inv(s: State) {
    DrainsOk(s) && Known(s) && forall r :: 0 <= r < |s.rows| ==> Balanced(s, r)
  }

  lemma {:induction false} SettleRow(rows: seq<OutboxRow>, d: Drain, r: nat)
    requires DrainOk(rows, d) && r < |rows|
    ensures var after := Settle(rows, d);
            && |after| == |rows|
            && after[r].topic == rows[r].topic && after[r].message == rows[r].message
            && after[r].published == (rows[r].published || r in d.batch[..d.sent])
            && after[r].attempts == rows[r].attempts + (if d.failed && d.batch[d.sent] == r then 1 else 0)
  {
  }

  lemma {:induction false} BeginIsDisjoint(s: State, relay: RelayId, limit: nat)
    requires DrainsOk(s) && Enabled(s, Begin(relay, limit))
    ensures DrainsOk(Next(s, Begin(relay, limit)))
  {
    FetchPicksTheFirst(s.rows, Locked(s), limit, 0);
    var d := Drain(FetchPending(s.rows, Locked(s), limit), 0, false);
    forall other | other in s.drains
      ensures Disjoint(s.drains[other], d) && Disjoint(d, s.drains[other])
    {
      assert forall r :: r in s.drains[other].batch ==> r in Locked(s);
      assert forall i :: 0 <= i < |d.batch| ==> d.batch[i] !in Locked(s);
    }
  }

  lemma {:induction false} CommitKeepsDrains(s: State, relay: RelayId)
    requires DrainsOk(s) && Enabled(s, Commit(relay))
    ensures DrainsOk(Next(s, Commit(relay)))
  {
    var d, t := s.drains[relay], Next(s, Commit(relay));
    forall other | other in t.drains
      ensures DrainOk(t.rows, t.drains[other])
    {
      var e := s.drains[other];
      assert Disjoint(e, d);
      forall i | 0 <= i < |e.batch|
        ensures e.batch[i] < |t.rows| && !t.rows[e.batch[i]].published
      {
        SettleRow(s.rows, d, e.batch[i]);
        assert e.batch[i] in e.batch;
      }
    }
  }

  lemma {:induction false} StepKeepsDrains(s: State, action: Action)
    requires DrainsOk(s) && Enabled(s, action)
    ensures DrainsOk(Next(s, action))
  {
    match action
    case Begin(relay, limit) => BeginIsDisjoint(s, relay, limit);
    case Commit(relay) => CommitKeepsDrains(s, relay);
    case _ =>
  }

  /** In an increasing list everything occurs at most once. */
  lemma {:induction false} OccursOnce(ids: seq<nat>, r: nat)
    requires Increasing(ids)
    ensures Times(ids, r) == if r in ids then 1 else 0
  {
    if ids != [] {
      var n := |ids| - 1;
      assert ids == ids[..n] + [ids[n]];
      OccursOnce(ids[..n], r);
    }
  }

  /** Which rows count as sent in an open drain, after a step on `relay`. */
  lemma {:induction false} NextRowIsUnsent(s: State, relay: RelayId)
    requires DrainsOk(s) && Enabled(s, Send(relay))
    ensures !SentOpenly(s, s.drains[relay].batch[s.drains[relay].sent])
  {
    var d := s.drains[relay];
    var r := d.batch[d.sent];
    forall other | other in s.drains && s.drains[other].sent <= |s.drains[other].batch|
      ensures r !in s.drains[other].batch[..s.drains[other].sent]
    {
      assert r in d.batch;
      if other != relay {
        assert Disjoint(d, s.drains[other]);
      }
    }
  }

  lemma {:induction false} OpenAfterSend(s: State, relay: RelayId, r: nat)
    requires DrainsOk(s) && Enabled(s, Send(relay))
    ensures SentOpenly(Next(s, Send(relay)), r)
            <==> (SentOpenly(s, r) || r == s.drains[relay].batch[s.drains[relay].sent])
  {
    var d, t := s.drains[relay], Next(s, Send(relay));
    assert t.drains[relay].batch[..d.sent + 1] == d.batch[..d.sent] + [d.batch[d.sent]];
    if SentOpenly(s, r) {
      var other :| other in s.drains && s.drains[other].sent <= |s.drains[other].batch|
                   && r in s.drains[other].batch[..s.drains[other].sent];
      assert other in t.drains && r in t.drains[other].batch[..t.drains[other].sent];
    }
    if r == d.batch[d.sent] {
      assert relay in t.drains && r in t.drains[relay].batch[..t.drains[relay].sent];
    }
    if SentOpenly(t, r) && r != d.batch[d.sent] {
      var other :| other in t.drains && t.drains[other].sent <= |t.drains[other].batch|
                   && r in t.drains[other].batch[..t.drains[other].sent];
      assert other in s.drains && r in s.drains[other].batch[..s.drains[other].sent];
    }
  }

  lemma {:induction false} OpenAfterClose(s: State, t: State, relay: RelayId, r: nat)
    requires DrainsOk(s) && relay in s.drains && t.drains == s.drains - {relay}
    ensures var d := s.drains[relay];
            && (r in d.batch[..d.sent] ==> SentOpenly(s, r) && !SentOpenly(t, r))
            && (r !in d.batch[..d.sent] ==> SentOpenly(t, r) == SentOpenly(s, r))
  {
    var d := s.drains[relay];
    if SentOpenly(t, r) {
      var other :| other in t.drains && t.drains[other].sent <= |t.drains[other].batch|
                   && r in t.drains[other].batch[..t.drains[other].sent];
      assert other in s.drains && r in s.drains[other].batch[..s.drains[other].sent];
      assert Disjoint(d, s.drains[other]);
      assert r in s.drains[other].batch;
    }
    if SentOpenly(s, r) && r !in d.batch[..d.sent] {
      var other :| other in s.drains && s.drains[other].sent <= |s.drains[other].batch|
                   && r in s.drains[other].batch[..s.drains[other].sent];
      assert other in t.drains && r in t.drains[other].batch[..t.drains[other].sent];
    }
  }

  lemma {:induction false} OpenUnchanged(s: State, t: State, r: nat)
    requires forall relay :: relay in s.drains ==> relay in t.drains && t.drains[relay].batch == s.drains[relay].batch
                                                   && t.drains[relay].sent == s.drains[relay].sent
    requires forall relay :: relay in t.drains && relay !in s.drains ==> t.drains[relay].sent == 0
    ensures SentOpenly(t, r) == SentOpenly(s, r)
  {
    if SentOpenly(s, r) {
      var relay :| relay in s.drains && s.drains[relay].sent <= |s.drains[relay].batch|
                   && r in s.drains[relay].batch[..s.drains[relay].sent];
      assert relay in t.drains && r in t.drains[relay].batch[..t.drains[relay].sent];
    }
    if SentOpenly(t, r) {
      var relay :| relay in t.drains && t.drains[relay].sent <= |t.drains[relay].batch|
                   && r in t.drains[relay].batch[..t.drains[relay].sent];
      assert relay in s.drains && r in s.drains[relay].batch[..s.drains[relay].sent];
    }
  }

  lemma {:induction false} NewRowUnsent(s: State, t: State)
    requires DrainsOk(s) && t.drains == s.drains
    ensures !SentOpenly(t, |s.rows|)
  {
    var r := |s.rows|;
    forall relay | relay in t.drains && t.drains[relay].sent <= |t.drains[relay].batch|
      ensures r !in t.drains[relay].batch[..t.drains[relay].sent]
    {
      assert DrainOk(s.rows, s.drains[relay]);
    }
  }

  /** Nothing has happened yet to a row that has just been inserted. */
  lemma {:induction false} NewRowBalanced(s: State, topic: Topic, message: Message)
    requires Inv(s)
    ensures Balanced(Next(s, Insert(topic, message)), |s.rows|)
  {
    var r := |s.rows|;
    assert r !in s.log && r !in s.aborted && r !in s.strays && r !in s.failures;
    NewRowUnsent(s, Next(s, Insert(topic, message)));
  }

  lemma {:induction false} StepKeepsBalance(s: State, action: Action, r: nat)
    requires Inv(s) && Enabled(s, action) && r < |s.rows|
    ensures r < |Next(s, action).rows| && Balanced(Next(s, action), r)
  {
    var t := Next(s, action);
    assert Balanced(s, r);
    match action
    case Insert(_, _) => OpenUnchanged(s, t, r);
    case Begin(_, _) => OpenUnchanged(s, t, r);
    case Send(relay) => OpenAfterSend(s, relay, r); NextRowIsUnsent(s, relay);
    case SendFails(_, _) => OpenUnchanged(s, t, r);
    case Commit(relay) => CommitBalance(s, relay, r);
    case Abort(relay) =>
      OpenAfterClose(s, t, relay, r);
      var sent := s.drains[relay].batch[..s.drains[relay].sent];
      OccursOnce(sent, r);
      assert multiset(s.aborted + sent) == multiset(s.aborted) + multiset(sent);
  }

  lemma {:induction false} CommitBalance(s: State, relay: RelayId, r: nat)
    requires Inv(s) && Enabled(s, Commit(relay)) && r < |s.rows|
    ensures r < |Next(s, Commit(relay)).rows| && Balanced(Next(s, Commit(relay)), r)
  {
    var d, t := s.drains[relay], Next(s, Commit(relay));
    assert Balanced(s, r);
    SettleRow(s.rows, d, r);
    OpenAfterClose(s, t, relay, r);
    if r in d.batch[..d.sent] {
      assert r in d.batch;
    }
  }

  lemma {:induction false} StepKeepsKnown(s: State, action: Action)
    requires Inv(s) && Enabled(s, action)
    ensures Known(Next(s, action))
  {
    if action.Send? || action.SendFails? || action.Commit? || action.Abort? {
      assert DrainOk(s.rows, s.drains[action.relay]);
    }
  }

  lemma {:induction false} StepKeepsInv(s: State, action: Action)
    requires Inv(s) && Enabled(s, action)
    ensures Inv(Next(s, action))
  {
    hide Balanced, DrainsOk, Known;
    StepInvParts(s, action);
    StepKeepsKnown(s, action);
    forall r | 0 <= r < |Next(s, action).rows|
      ensures Balanced(Next(s, action), r)
    {
      if r < |s.rows| {
        StepKeepsBalance(s, action, r);
      } else {
        NewRowBalanced(s, action.topic, action.message);
      }
    }
  }

  lemma {:induction false} StepInvParts(s: State, action: Action)
    requires Inv(s) && Enabled(s, action)
    ensures DrainsOk(Next(s, action))
    ensures |s.rows| <= |Next(s, action).rows| <= |s.rows| + 1
    ensures |Next(s, action).rows| > |s.rows| ==> action.Insert?
  {
    StepKeepsDrains(s, action);
  }

  // ---------------------------------------------------------------- runs

  ghost predicate Legal(s: State, actions: seq<Action>)
    decreases |actions|
  {
    actions == [] || (Enabled(s, actions[0]) && Legal(Next(s, actions[0]), actions[1..]))
  }

  ghost function Exec(s: State, actions: seq<Action>): State
    requires Legal(s, actions)
    decreases |actions|
  {
    if actions == [] then s else Exec(Next(s, actions[0]), actions[1..])
  }

  lemma {:induction false} RunKeepsInv(s: State, actions: seq<Action>)
    requires Inv(s) && Legal(s, actions)
    ensures Inv(Exec(s, actions))
    decreases |actions|
  {
    if actions != [] {
      StepKeepsInv(s, actions[0]);
      RunKeepsInv(Next(s, actions[0]), actions[1..]);
    }
  }

  /** Any number of relays, in any interleaving, with crashes: locked batches never overlap and are in id
      order, and each has sent a prefix of its batch. */
  lemma {:induction false} BatchesAreDisjoint(actions: seq<Action>, p: RelayId, q: RelayId)
    requires Legal(INITIAL, actions)
    requires p in Exec(INITIAL, actions).drains && q in Exec(INITIAL, actions).drains
    ensures var s := Exec(INITIAL, actions);
            && Increasing(s.drains[p].batch) && s.drains[p].sent <= |s.drains[p].batch|
            && (p != q ==> forall r :: r in s.drains[p].batch ==> r !in s.drains[q].batch)
            && (forall i :: 0 <= i < |s.drains[p].batch| ==>
                  s.drains[p].batch[i] < |s.rows| && !s.rows[s.drains[p].batch[i]].published)
  {
    RunKeepsInv(INITIAL, actions);
    assert DrainOk(Exec(INITIAL, actions).rows, Exec(INITIAL, actions).drains[p]);
    assert p != q ==> Disjoint(Exec(INITIAL, actions).drains[p], Exec(INITIAL, actions).drains[q]);
  }

  /** Every delivery of a row is one of: a send of an aborted drain, a failed send that arrived all the same,
      a send of a drain still open, or the one send that marked it PUBLISHED; and `attempts` counts its
      committed failures. */
  lemma {:induction false} DeliveriesAreAccountedFor(actions: seq<Action>, r: nat)
    requires Legal(INITIAL, actions)
    requires r < |Exec(INITIAL, actions).rows|
    ensures var s := Exec(INITIAL, actions);
            && Times(s.log, r) == Times(s.aborted, r) + Times(s.strays, r)
                                  + (if SentOpenly(s, r) then 1 else 0) + (if s.rows[r].published then 1 else 0)
            && s.rows[r].attempts == Times(s.failures, r)
            && (s.rows[r].published ==> r in s.log)
  {
    RunKeepsInv(INITIAL, actions);
    assert Balanced(Exec(INITIAL, actions), r);
  }

  /** A committed row never disappears, never changes its message and never leaves PUBLISHED. */
  lemma {:induction false} PublishedIsFinal(actions: seq<Action>, action: Action, r: nat)
    requires Legal(INITIAL, actions)
    requires Enabled(Exec(INITIAL, actions), action)
    requires r < |Exec(INITIAL, actions).rows|
    ensures var s := Exec(INITIAL, actions);
            var t := Next(s, action);
            && r < |t.rows| && t.rows[r].message == s.rows[r].message && t.rows[r].topic == s.rows[r].topic
            && (s.rows[r].published ==> t.rows[r].published)
            && s.rows[r].attempts <= t.rows[r].attempts
  {
    RunKeepsInv(INITIAL, actions);
    var s := Exec(INITIAL, actions);
    if action.Commit? {
      SettleRow(s.rows, s.drains[action.relay], r);
    }
  }

  // ---------------------------------------------------------------- one relay

  function Range(n: nat): (ids: seq<nat>)
    ensures |ids| == n && forall i :: 0 <= i < n ==> ids[i] == i
  {
    seq(n, i => i)
  }

  ghost predicate OneRelay(actions: seq<Action>, relay: RelayId) {
    forall i :: 0 <= i < |actions| ==> (actions[i].Begin? ==> actions[i].relay == relay)
  }

  /** With one relay the published rows are the first `k`, and an open drain continues from there. */
  ghost predicate InIdOrder(s: State, relay: RelayId, k: nat) {
    var seen := |FirstOccurrences(s.log)|;
    && s.drains.Keys <= {relay}
    && k <= seen <= |s.rows|
    && FirstOccurrences(s.log) == Range(|s.rows|)[..seen]
    && (forall r :: 0 <= r < |s.rows| ==> (s.rows[r].published <==> r < k))
    && (relay in s.drains ==>
          var d := s.drains[relay];
          && d.sent <= |d.batch| && k + |d.batch| <= |s.rows| && k + d.sent <= seen
          && (d.failed ==> d.sent < |d.batch|)
          && (forall i :: 0 <= i < |d.batch| ==> d.batch[i] == k + i))
  }

  lemma {:induction false} FetchSuffix(rows: seq<OutboxRow>, limit: nat, at: nat, k: nat)
    requires k <= |rows| && at <= |rows|
    requires forall r :: 0 <= r < |rows| ==> (rows[r].published <==> r < k)
    ensures var ids := FetchFrom(rows, {}, limit, at);
            var from := if at < k then k else at;
            from + |ids| <= |rows| && forall i :: 0 <= i < |ids| ==> ids[i] == from + i
    decreases |rows| - at
  {
    if at < |rows| && limit > 0 {
      if PendingAt(rows, {}, at) {
        FetchSuffix(rows, limit - 1, at + 1, k);
      } else {
        FetchSuffix(rows, limit, at + 1, k);
      }
    }
  }

  lemma {:induction false} DeliveryKeepsOrder(s: State, r: nat)
    requires r <= |FirstOccurrences(s.log)| <= |s.rows| && r < |s.rows|
    requires FirstOccurrences(s.log) == Range(|s.rows|)[..|FirstOccurrences(s.log)|]
    ensures var seen := |FirstOccurrences(s.log)|;
            var after := FirstOccurrences(s.log + [r]);
            && |after| == (if r == seen then seen + 1 else seen) && after == Range(|s.rows|)[..|after|]
  {
    RestartableScan(s.log, Range(|s.rows|), |FirstOccurrences(s.log)|, r);
  }

  lemma {:induction false} CommitKeepsOrder(s: State, relay: RelayId, k: nat) returns (k': nat)
    requires InIdOrder(s, relay, k) && Enabled(s, Commit(relay))
    ensures InIdOrder(Next(s, Commit(relay)), relay, k')
  {
    var d, t := s.drains[relay], Next(s, Commit(relay));
    k' := k + d.sent;
    assert DrainOk(s.rows, d);
    forall r | 0 <= r < |t.rows|
      ensures t.rows[r].published <==> r < k'
    {
      SettleRow(s.rows, d, r);
      assert k <= r < k' ==> d.batch[..d.sent][r - k] == r;
    }
  }

  lemma {:induction false} InsertKeepsOrder(s: State, topic: Topic, message: Message, relay: RelayId, k: nat)
    requires InIdOrder(s, relay, k)
    ensures InIdOrder(Next(s, Insert(topic, message)), relay, k)
  {
    hide FirstOccurrences;
    var t := Next(s, Insert(topic, message));
    var seen := |FirstOccurrences(s.log)|;
    assert Range(|t.rows|)[..seen] == Range(|s.rows|)[..seen];
  }

  lemma {:induction false} BeginKeepsOrder(s: State, relay: RelayId, limit: nat, k: nat)
    requires InIdOrder(s, relay, k) && Enabled(s, Begin(relay, limit))
    ensures InIdOrder(Next(s, Begin(relay, limit)), relay, k)
  {
    hide FirstOccurrences, FetchFrom, Range;
    assert s.drains == map[];
    assert Locked(s) == {};
    FetchSuffix(s.rows, limit, 0, k);
  }

  lemma {:induction false} SendKeepsOrder(s: State, action: Action, relay: RelayId, k: nat)
    requires InIdOrder(s, relay, k) && Enabled(s, action) && (action.Send? || action.SendFails?)
    ensures InIdOrder(Next(s, action), relay, k)
  {
    hide FirstOccurrences, Range;
    DeliveryKeepsOrder(s, k + s.drains[relay].sent);
  }

  lemma {:induction false} AbortKeepsOrder(s: State, relay: RelayId, who: RelayId, k: nat)
    requires InIdOrder(s, relay, k) && Enabled(s, Abort(who))
    ensures InIdOrder(Next(s, Abort(who)), relay, k)
  {
    hide FirstOccurrences, Range;
  }

  lemma {:induction false} StepKeepsOrder(s: State, action: Action, relay: RelayId, k: nat) returns (k': nat)
    requires InIdOrder(s, relay, k) && Enabled(s, action)
    requires action.Begin? ==> action.relay == relay
    ensures InIdOrder(Next(s, action), relay, k')
  {
    k' := k;
    OnlyRelay(s, action, relay, k);
    hide InIdOrder, Next, Enabled;
    match action
    case Insert(topic, message) => InsertKeepsOrder(s, topic, message, relay, k);
    case Begin(_, limit) => BeginKeepsOrder(s, relay, limit, k);
    case Send(_) => SendKeepsOrder(s, action, relay, k);
    case SendFails(_, _) => SendKeepsOrder(s, action, relay, k);
    case Commit(_) => k' := CommitKeepsOrder(s, relay, k);
    case Abort(who) => AbortKeepsOrder(s, relay, who, k);
  }

  /** Every drain is the one relay's. */
  lemma {:induction false} OnlyRelay(s: State, action: Action, relay: RelayId, k: nat)
    requires InIdOrder(s, relay, k) && Enabled(s, action)
    ensures action.Commit? ==> action.relay == relay
  {
    hide FirstOccurrences, Range;
  }

  lemma {:induction false} RunKeepsOrder(s: State, actions: seq<Action>, relay: RelayId, k: nat) returns (k': nat)
    requires InIdOrder(s, relay, k) && Legal(s, actions) && OneRelay(actions, relay)
    ensures InIdOrder(Exec(s, actions), relay, k')
    decreases |actions|
  {
    k' := k;
    if actions != [] {
      var k1 := StepKeepsOrder(s, actions[0], relay, k);
      k' := RunKeepsOrder(Next(s, actions[0]), actions[1..], relay, k1);
    }
  }

  /** One relay that may crash and restart anywhere: with repeats removed, what was published is a prefix of
      the rows in id order; and every committed row is still PENDING or has been published. */
  lemma {:induction false} PublishOrderIsIdOrder(actions: seq<Action>, relay: RelayId)
    requires Legal(INITIAL, actions) && OneRelay(actions, relay)
    ensures var s := Exec(INITIAL, actions);
            && FirstOccurrences(s.log) <= Range(|s.rows|)
            && (forall r :: 0 <= r < |s.rows| ==> !s.rows[r].published || r in s.log)
            && (forall q, r :: 0 <= q < r < |s.rows| && s.rows[r].published ==> s.rows[q].published)
  {
    var k := RunKeepsOrder(INITIAL, actions, relay, 0);
    var s := Exec(INITIAL, actions);
    forall r: nat | r < |s.rows| && s.rows[r].published
      ensures r in s.log
    {
      assert FirstOccurrences(s.log)[r] == r;
      FirstOccurrencesMembers(s.log, r);
    }
  }
}
