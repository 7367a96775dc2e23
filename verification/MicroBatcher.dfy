/** Enqueuing clients and the self-terminating flush loop, interleaved. */
module MicroBatcher {
  import opened Prelude
  import opened BatchItems

  /** A batch taken from the queue, with the draws of the futures resolved so far; `died` when running it
      raised, which leaves the other futures unresolved. */
  datatype Cut = Cut(items: seq<Item>, draws: seq<Draw>, died: bool)

  datatype Reply = Reply(id: nat, outcome: Outcome)

  datatype Loop = Waiting | Cleared | Running(cut: nat) | Finished | Died

  /** `task` is the flush task the queue refers to, an index into all tasks ever created. `enqueued`, `cuts`
      and `answers` are histories. */
  datatype State = State(
    queue: seq<Item>,
    wake: bool,
    task: Option<nat>,
    loops: seq<Loop>,
    enqueued: seq<Item>,
    cuts: seq<Cut>,
    answers: seq<Reply>)

  const INITIAL := State([], false, None, [], [], [], [])

  datatype Action =
    | Enqueue(payload: Payload)
    | Wake(loop: nat)                   // the flag was set, or the timeout passed; the flag is cleared
    | TakeBatch(loop: nat)              // the critical section: cut a batch, or end the task
    | Settle(loop: nat, u: Draw)        // the next future of the running batch is resolved
    | Die(loop: nat, u: Draw)           // running the batch raises
    | Return(loop: nat)                 // running the batch returns

  predicate Live(loop: Loop) {
    loop.Waiting? || loop.Cleared? || loop.Running?
  }

  predicate LoopIs(s: State, loop: nat, expected: Loop) {
    loop < |s.loops| && s.loops[loop] == expected
  }

  predicate RunsABatch(s: State, loop: nat) {
    loop < |s.loops| && s.loops[loop].Running? && s.loops[loop].cut < |s.cuts|
  }

  function BatchOf(s: State, loop: nat): Cut
    requires RunsABatch(s, loop)
  {
    s.cuts[s.loops[loop].cut]
  }

  /** The next step of running a batch raises. A batch of one never does. */
  predicate Dies(c: Config, cut: Cut, u: Draw) {
    && |cut.items| > 1 && |cut.draws| < |cut.items|
    && (!Preparable(c, cut.items) || Raises(c, cut.items[|cut.draws|].payload, u))
  }

  predicate Enabled(c: Config, s: State, action: Action) {
    match action
    case Enqueue(_) => true
    case Wake(loop) => LoopIs(s, loop, Waiting)
    case TakeBatch(loop) => LoopIs(s, loop, Cleared)
    case Settle(loop, u) =>
      RunsABatch(s, loop) && var cut := BatchOf(s, loop); |cut.draws| < |cut.items| && !Dies(c, cut, u)
    case Die(loop, u) => RunsABatch(s, loop) && Dies(c, BatchOf(s, loop), u)
    case Return(loop) => RunsABatch(s, loop) && |BatchOf(s, loop).draws| == |BatchOf(s, loop).items|
  }

  /** No task, or one that is done. */
  predicate NeedsTask(s: State) {
    s.task.None? || (s.task.value < |s.loops| && !Live(s.loops[s.task.value]))
  }

  function Enqueued(c: Config, s: State, payload: Payload): State {
    var item := Item(|s.enqueued|, payload);
    var t := s.(queue := s.queue + [item], enqueued := s.enqueued + [item]);
    var u := if NeedsTask(s) then t.(loops := s.loops + [Waiting], task := Some(|s.loops|)) else t;
    if |u.queue| >= c.batchSize then u.(wake := true) else u
  }

  function BatchTaken(c: Config, s: State, loop: nat): State
    requires loop < |s.loops|
  {
    if s.queue == [] then s.(task := None, loops := s.loops[loop := Finished])
    else
      var n := if c.batchSize < |s.queue| then c.batchSize else |s.queue|;
      var t := s.(queue := s.queue[n..], loops := s.loops[loop := Running(|s.cuts|)],
                  cuts := s.cuts + [Cut(s.queue[..n], [], false)]);
      if |t.queue| >= c.batchSize then t.(wake := true) else t
  }

  function ReplyTo(c: Config, item: Item, batchSize: nat, u: Draw): Reply {
    Reply(item.id, OutcomeOf(c, item.payload, batchSize, u))
  }

  function Next(c: Config, s: State, action: Action): State
    requires Enabled(c, s, action)
  {
    match action
    case Enqueue(payload) => Enqueued(c, s, payload)
    case Wake(loop) => s.(wake := false, loops := s.loops[loop := Cleared])
    case TakeBatch(loop) => BatchTaken(c, s, loop)
    case Settle(loop, u) =>
      var cut := BatchOf(s, loop);
      s.(cuts := s.cuts[s.loops[loop].cut := cut.(draws := cut.draws + [u])],
         answers := s.answers + [ReplyTo(c, cut.items[|cut.draws|], |cut.items|, u)])
    case Die(loop, _) =>
      s.(cuts := s.cuts[s.loops[loop].cut := BatchOf(s, loop).(died := true)], loops := s.loops[loop := Died])
    case Return(loop) => s.(loops := s.loops[loop := Waiting])
  }

  /** The batching fields of the simulator and the tasks its event loop knows. Each method is one critical
      section under the batch lock. */
  class GpuInferenceSimulator {
    const config: Config
    var batchQueue: seq<Item>
    var batchEvent: bool
    var batchFlushTask: Option<nat>
    var tasks: seq<Loop>
    var nextId: nat
    var nextBatch: nat
    ghost var enqueued: seq<Item>
    ghost var cuts: seq<Cut>
    ghost var answers: seq<Reply>

    ghost predicate Valid()
      reads this
    {
      nextId == |enqueued| && nextBatch == |cuts| && (batchFlushTask.Some? ==> batchFlushTask.value < |tasks|)
    }

    ghost function Snapshot(): State
      reads this
    {
      State(batchQueue, batchEvent, batchFlushTask, tasks, enqueued, cuts, answers)
    }

    constructor (config: Config)
      ensures Valid() && this.config == config && Snapshot() == INITIAL
    {
      this.config := config;
      batchQueue, batchEvent, batchFlushTask, tasks := [], false, None, [];
      nextId, nextBatch := 0, 0;
      enqueued, cuts, answers := [], [], [];
    }

    /** `_enqueue_and_wait`, up to the wait for the future. */
    method EnqueueItem(payload: Payload) returns (item: Item)
      requires Valid()
      modifies this
      ensures Valid() && Snapshot() == Enqueued(config, old(Snapshot()), payload)
      ensures batchQueue == old(batchQueue) + [item] && item.payload == payload
      ensures batchFlushTask.Some? && Live(tasks[batchFlushTask.value])
      ensures batchEvent == (old(batchEvent) || |batchQueue| >= config.batchSize)
      ensures old(batchFlushTask).Some? && Live(old(tasks)[old(batchFlushTask).value]) ==>
                batchFlushTask == old(batchFlushTask) && tasks == old(tasks)
    {
      item := Item(nextId, payload);
      nextId := nextId + 1;
      batchQueue := batchQueue + [item];
      enqueued := enqueued + [item];
      if batchFlushTask.None? || !Live(tasks[batchFlushTask.value]) {
        tasks := tasks + [Waiting];
        batchFlushTask := Some(|tasks| - 1);
      }
      if |batchQueue| >= config.batchSize {
        batchEvent := true;
      }
    }

    /** The critical section of `_batch_flush_loop`: no batch means the loop ends. */
    method TakeBatch(loop: nat) returns (batch: Option<seq<Item>>)
      requires Valid() && LoopIs(Snapshot(), loop, Cleared)
      modifies this
      ensures Valid() && Snapshot() == BatchTaken(config, old(Snapshot()), loop)
      ensures batch.None? <==> old(batchQueue) == []
      ensures batch.Some? ==> 1 <= |batch.value| <= config.batchSize && batch.value + batchQueue == old(batchQueue)
      ensures batch.Some? ==> |batch.value| == config.batchSize || batchQueue == []
      ensures batchEvent == (old(batchEvent) || |batchQueue| >= config.batchSize)
    {
      if batchQueue == [] {
        batchFlushTask := None;
        tasks := tasks[loop := Finished];
        return None;
      }
      var n := if config.batchSize < |batchQueue| then config.batchSize else |batchQueue|;
      batch := Some(batchQueue[..n]);
      batchQueue := batchQueue[n..];
      tasks := tasks[loop := Running(nextBatch)];
      nextBatch := nextBatch + 1;
      cuts := cuts + [Cut(batch.value, [], false)];
      if |batchQueue| >= config.batchSize {
        batchEvent := true;
      }
    }
  }

  // ---------------------------------------------------------------- invariant

  /** The batches, one after another. */
  function Flatten(cuts: seq<Cut>): seq<Item> {
    if cuts == [] then [] else Flatten(cuts[..|cuts| - 1]) + cuts[|cuts| - 1].items
  }

  predicate CutOk(c: Config, cut: Cut) {
    && 1 <= |cut.items| <= c.batchSize
    && |cut.draws| <= |cut.items|
    && (|cut.items| > 1 && !Preparable(c, cut.items) ==> cut.draws == [])
    && (|cut.items| > 1 ==> forall i :: 0 <= i < |cut.draws| ==> !Raises(c, cut.items[i].payload, cut.draws[i]))
    && (cut.died ==>
          && |cut.items| > 1 && |cut.draws| < |cut.items|
          && (Preparable(c, cut.items) ==> MayRaise(c, cut.items[|cut.draws|].payload)))
  }

  predicate Over(cut: Cut) {
    cut.died || |cut.draws| == |cut.items|
  }

  function CutReplies(c: Config, cut: Cut): seq<Reply>
    requires |cut.draws| <= |cut.items|
  {
    seq(|cut.draws|, i requires 0 <= i < |cut.draws| => ReplyTo(c, cut.items[i], |cut.items|, cut.draws[i]))
  }

  ghost predicate CutsOk(c: Config, cuts: seq<Cut>) {
    forall b :: 0 <= b < |cuts| ==> CutOk(c, cuts[b])
  }

  /** The replies of the batches, one after another. */
  ghost function Replies(c: Config, cuts: seq<Cut>): seq<Reply>
    requires CutsOk(c, cuts)
  {
    if cuts == [] then [] else Replies(c, cuts[..|cuts| - 1]) + CutReplies(c, cuts[|cuts| - 1])
  }

  ghost predicate Conserved(s: State) {
    && Flatten(s.cuts) + s.queue == s.enqueued
    && forall i :: 0 <= i < |s.enqueued| ==> s.enqueued[i].id == i
  }

  ghost predicate OneAtATime(cuts: seq<Cut>) {
    forall b :: 0 <= b < |cuts| - 1 ==> Over(cuts[b])
  }

  ghost predicate OneLoop(s: State) {
    && (forall i: nat :: i < |s.loops| && Live(s.loops[i]) ==> s.task == Some(i))
    && (s.task.Some? ==> s.task.value < |s.loops|)
  }

  /** What the current task owes the queue and the last batch. */
  predicate TaskOk(c: Config, s: State) {
    && (s.task.Some? ==> s.task.value < |s.loops|)
    && match Current(s)
       case None => s.queue == [] && LastOver(s) && !s.wake
       case Some(Waiting) => LastOver(s) && (|s.queue| >= c.batchSize ==> s.wake)
       case Some(Cleared) => LastOver(s) && (s.queue == [] ==> !s.wake)
       case Some(Running(b)) =>
         b + 1 == |s.cuts| && !s.cuts[b].died && (|s.queue| >= c.batchSize ==> s.wake)
       case Some(Died) =>
         s.cuts != [] && s.cuts[|s.cuts| - 1].died && (|s.queue| >= c.batchSize ==> s.wake)
       case Some(Finished) => false
  }

  function Current(s: State): Option<Loop>
    requires s.task.Some? ==> s.task.value < |s.loops|
  {
    if s.task.Some? then Some(s.loops[s.task.value]) else None
  }

  predicate LastOver(s: State) {
    s.cuts != [] ==> Over(s.cuts[|s.cuts| - 1])
  }

  ghost predicate Inv(c: Config, s: State) {
    && CutsOk(c, s.cuts) && OneAtATime(s.cuts)
    && Conserved(s) && OneLoop(s) && TaskOk(c, s)
    && s.answers == Replies(c, s.cuts)
  }

  lemma {:induction false} FlattenAppend(cuts: seq<Cut>, cut: Cut)
    ensures Flatten(cuts + [cut]) == Flatten(cuts) + cut.items
  {
    assert (cuts + [cut])[..|cuts|] == cuts;
  }

  lemma {:induction false} RepliesAppend(c: Config, cuts: seq<Cut>, cut: Cut)
    requires CutsOk(c, cuts + [cut])
    ensures CutsOk(c, cuts) && CutOk(c, cut)
    ensures Replies(c, cuts + [cut]) == Replies(c, cuts) + CutReplies(c, cut)
  {
    assert (cuts + [cut])[..|cuts|] == cuts && (cuts + [cut])[|cuts|] == cut;
    forall b | 0 <= b < |cuts| ensures CutOk(c, cuts[b]) {
      assert CutOk(c, (cuts + [cut])[b]);
    }
  }

  lemma {:induction false} Last<T>(xs: seq<T>)
    requires xs != []
    ensures xs == xs[..|xs| - 1] + [xs[|xs| - 1]]
  {
  }

  lemma {:induction false} Replaced<T>(xs: seq<T>, x: T)
    requires xs != []
    ensures xs[|xs| - 1 := x] == xs[..|xs| - 1] + [x]
  {
  }

  /** A live loop is the one the queue refers to, and a running one runs the last batch. */
  lemma {:induction false} TheLoop(c: Config, s: State, loop: nat)
    requires Inv(c, s) && loop < |s.loops| && Live(s.loops[loop])
    ensures s.task == Some(loop) && Current(s) == Some(s.loops[loop])
    ensures s.loops[loop].Running? ==> s.loops[loop].cut + 1 == |s.cuts| && !s.cuts[|s.cuts| - 1].died
    ensures !s.loops[loop].Running? ==> LastOver(s)
    ensures s.cuts != [] ==> CutOk(c, s.cuts[|s.cuts| - 1])
  {
    hide CutOk, Replies, Flatten;
  }

  lemma {:induction false} AppendKeepsCuts(c: Config, cuts: seq<Cut>, cut: Cut)
    requires CutsOk(c, cuts) && OneAtATime(cuts) && CutOk(c, cut)
    requires cuts != [] ==> Over(cuts[|cuts| - 1])
    ensures CutsOk(c, cuts + [cut]) && OneAtATime(cuts + [cut])
  {
    hide CutOk, Over;
  }

  lemma {:induction false} ReplaceKeepsCuts(c: Config, cuts: seq<Cut>, cut: Cut)
    requires cuts != [] && CutsOk(c, cuts) && OneAtATime(cuts) && CutOk(c, cut)
    ensures CutsOk(c, cuts[|cuts| - 1 := cut]) && OneAtATime(cuts[|cuts| - 1 := cut])
    ensures CutsOk(c, cuts[..|cuts| - 1])
    ensures Flatten(cuts[|cuts| - 1 := cut]) == Flatten(cuts[..|cuts| - 1]) + cut.items
    ensures Flatten(cuts) == Flatten(cuts[..|cuts| - 1]) + cuts[|cuts| - 1].items
    ensures Replies(c, cuts[|cuts| - 1 := cut]) == Replies(c, cuts[..|cuts| - 1]) + CutReplies(c, cut)
    ensures Replies(c, cuts) == Replies(c, cuts[..|cuts| - 1]) + CutReplies(c, cuts[|cuts| - 1])
  {
    hide CutOk, Over;
    var earlier := cuts[..|cuts| - 1];
    Last(cuts);
    Replaced(cuts, cut);
    FlattenAppend(earlier, cut);
    FlattenAppend(earlier, cuts[|cuts| - 1]);
    assert CutsOk(c, cuts[|cuts| - 1 := cut]);
    RepliesAppend(c, earlier, cut);
    RepliesAppend(c, earlier, cuts[|cuts| - 1]);
  }

  lemma {:induction false} EnqueueKeepsInv(c: Config, s: State, payload: Payload)
    requires Inv(c, s)
    ensures Inv(c, Enqueued(c, s, payload))
  {
    hide CutsOk, OneAtATime, Replies, Flatten, CutOk;
    Associative(Flatten(s.cuts), s.queue, [Item(|s.enqueued|, payload)]);
  }

  lemma {:induction false} NewCutOk(c: Config, cut: Cut)
    requires 1 <= |cut.items| <= c.batchSize && cut.draws == [] && !cut.died
    ensures CutOk(c, cut) && CutReplies(c, cut) == []
  {
  }

  lemma {:induction false} TakeBatchKeepsInv(c: Config, s: State, loop: nat)
    requires Inv(c, s) && LoopIs(s, loop, Cleared)
    ensures Inv(c, BatchTaken(c, s, loop))
  {
    hide CutsOk, OneAtATime, Replies, Flatten, Over, CutOk, CutReplies;
    TheLoop(c, s, loop);
    if s.queue != [] {
      var t := BatchTaken(c, s, loop);
      var cut := t.cuts[|s.cuts|];
      NewCutOk(c, cut);
      AppendKeepsCuts(c, s.cuts, cut);
      FlattenAppend(s.cuts, cut);
      RepliesAppend(c, s.cuts, cut);
      Associative(Flatten(s.cuts), cut.items, t.queue);
      assert cut.items + t.queue == s.queue;
    }
  }

  lemma {:induction false} SettledCutOk(c: Config, cut: Cut, u: Draw)
    requires CutOk(c, cut) && !cut.died && |cut.draws| < |cut.items| && !Dies(c, cut, u)
    ensures CutOk(c, cut.(draws := cut.draws + [u]))
    ensures |cut.draws| + 1 <= |cut.items|
    ensures CutReplies(c, cut.(draws := cut.draws + [u]))
         == CutReplies(c, cut) + [ReplyTo(c, cut.items[|cut.draws|], |cut.items|, u)]
  {
    hide Preparable, Raises, MayRaise, OutcomeOf;
  }

  lemma {:induction false} DeadCutOk(c: Config, cut: Cut, u: Draw)
    requires CutOk(c, cut) && Dies(c, cut, u)
    ensures CutOk(c, cut.(died := true))
    ensures |cut.draws| <= |cut.items| && CutReplies(c, cut.(died := true)) == CutReplies(c, cut)
  {
    hide Preparable, Raises, MayRaise, OutcomeOf;
    RaisesIffSomeDraw(c, cut.items[|cut.draws|].payload);
  }

  lemma {:induction false} SettleKeepsInv(c: Config, s: State, loop: nat, u: Draw)
    requires Inv(c, s) && Enabled(c, s, Settle(loop, u))
    ensures Inv(c, Next(c, s, Settle(loop, u)))
  {
    hide CutsOk, OneAtATime, Replies, Flatten, Over, CutOk, CutReplies, Dies;
    TheLoop(c, s, loop);
    var cut := BatchOf(s, loop);
    SettledCutOk(c, cut, u);
    var settled := cut.(draws := cut.draws + [u]);
    ReplaceKeepsCuts(c, s.cuts, settled);
    Associative(Replies(c, s.cuts[..|s.cuts| - 1]), CutReplies(c, cut),
                [ReplyTo(c, cut.items[|cut.draws|], |cut.items|, u)]);
  }

  lemma {:induction false} OtherStepKeepsInv(c: Config, s: State, action: Action)
    requires Inv(c, s) && Enabled(c, s, action)
    requires action.Wake? || action.Return? || action.Die?
    ensures Inv(c, Next(c, s, action))
  {
    hide CutsOk, OneAtATime, Replies, Flatten, CutOk, CutReplies, Dies;
    TheLoop(c, s, action.loop);
    if action.Die? {
      var cut := BatchOf(s, action.loop);
      DeadCutOk(c, cut, action.u);
      ReplaceKeepsCuts(c, s.cuts, cut.(died := true));
    }
  }

  lemma {:induction false} StepKeepsInv(c: Config, s: State, action: Action)
    requires Inv(c, s) && Enabled(c, s, action)
    ensures Inv(c, Next(c, s, action))
  {
    hide Inv;
    match action
    case Enqueue(payload) => EnqueueKeepsInv(c, s, payload);
    case TakeBatch(loop) => TakeBatchKeepsInv(c, s, loop);
    case Settle(loop, u) => SettleKeepsInv(c, s, loop, u);
    case _ => OtherStepKeepsInv(c, s, action);
  }

  // ---------------------------------------------------------------- runs

  predicate Legal(c: Config, s: State, actions: seq<Action>)
    decreases |actions|
  {
    actions == [] || (Enabled(c, s, actions[0]) && Legal(c, Next(c, s, actions[0]), actions[1..]))
  }

  function Exec(c: Config, s: State, actions: seq<Action>): State
    requires Legal(c, s, actions)
    decreases |actions|
  {
    if actions == [] then s else Exec(c, Next(c, s, actions[0]), actions[1..])
  }

  /** The payloads a run enqueued. */
  function Arrivals(actions: seq<Action>): seq<Payload> {
    if actions == [] then []
    else (if actions[0].Enqueue? then [actions[0].payload] else []) + Arrivals(actions[1..])
  }

  function Payloads(items: seq<Item>): seq<Payload> {
    seq(|items|, i requires 0 <= i < |items| => items[i].payload)
  }

  lemma {:induction false} RunKeepsInv(c: Config, s: State, actions: seq<Action>)
    requires Inv(c, s) && Legal(c, s, actions)
    ensures Inv(c, Exec(c, s, actions))
    decreases |actions|
  {
    hide Inv, Next, Enabled;
    if actions != [] {
      StepKeepsInv(c, s, actions[0]);
      RunKeepsInv(c, Next(c, s, actions[0]), actions[1..]);
    }
  }

  lemma {:induction false} StepArrivals(c: Config, s: State, action: Action)
    requires Enabled(c, s, action)
    ensures Payloads(Next(c, s, action).enqueued) == Payloads(s.enqueued) + Arrivals([action])
  {
  }

  lemma {:induction false} RunArrivals(c: Config, s: State, actions: seq<Action>)
    requires Legal(c, s, actions)
    ensures Payloads(Exec(c, s, actions).enqueued) == Payloads(s.enqueued) + Arrivals(actions)
    decreases |actions|
  {
    hide Next, Enabled, Payloads;
    if actions != [] {
      var t := Next(c, s, actions[0]);
      StepArrivals(c, s, actions[0]);
      RunArrivals(c, t, actions[1..]);
      assert Arrivals(actions) == Arrivals([actions[0]]) + Arrivals(actions[1..]);
      Associative(Payloads(s.enqueued), Arrivals([actions[0]]), Arrivals(actions[1..]));
    }
  }

  lemma {:induction false} Initially(c: Config)
    ensures Inv(c, INITIAL)
  {
  }

  /** At all times the batches followed by the queue are the requests of the run in arrival order, and every
      batch holds between one and `batchSize` of them. */
  lemma {:induction false} BatchesConserveArrivals(c: Config, actions: seq<Action>)
    requires Legal(c, INITIAL, actions)
    ensures var s := Exec(c, INITIAL, actions);
            && Payloads(Flatten(s.cuts) + s.queue) == Arrivals(actions)
            && (forall i :: 0 <= i < |Flatten(s.cuts) + s.queue| ==> (Flatten(s.cuts) + s.queue)[i].id == i)
            && (forall b :: 0 <= b < |s.cuts| ==> 1 <= |s.cuts[b].items| <= c.batchSize)
  {
    hide Legal, Exec, Flatten, Replies, OneAtATime, OneLoop, TaskOk, Arrivals, Next, Enabled;
    Initially(c);
    RunKeepsInv(c, INITIAL, actions);
    RunArrivals(c, INITIAL, actions);
    assert Payloads(INITIAL.enqueued) == [];
    var s := Exec(c, INITIAL, actions);
    forall b | 0 <= b < |s.cuts| ensures 1 <= |s.cuts[b].items| <= c.batchSize {
      assert CutOk(c, s.cuts[b]);
    }
  }

  lemma {:induction false} BatchIsInside(cuts: seq<Cut>, b: nat, i: nat)
    requires b < |cuts| && i < |cuts[b].items|
    ensures cuts[b].items[i] in Flatten(cuts)
  {
    if b < |cuts| - 1 {
      BatchIsInside(cuts[..|cuts| - 1], b, i);
    }
  }

  /** No batch of these requests can die: batches have one item, or every payload is safe. */
  predicate Tame(c: Config, items: seq<Item>) {
    c.batchSize == 1 || forall i :: 0 <= i < |items| ==> Safe(c, items[i].payload)
  }

  lemma {:induction false} TameBatchLives(c: Config, s: State, b: nat)
    requires Inv(c, s) && Tame(c, s.enqueued) && b < |s.cuts|
    ensures !s.cuts[b].died && forall u :: !Dies(c, s.cuts[b], u)
  {
    hide Replies, Flatten, OneAtATime, OneLoop, TaskOk, Preparable, Raises, Safe, MayRaise;
    var cut := s.cuts[b];
    assert CutOk(c, cut);
    if c.batchSize > 1 {
      forall i | 0 <= i < |cut.items| ensures Safe(c, cut.items[i].payload) {
        BatchIsInside(s.cuts, b, i);
        assert cut.items[i] in s.enqueued;
      }
      SafeBatchesArePreparable(c, cut.items);
      if |cut.draws| < |cut.items| {
        SafeNeverRaises(c, cut.items[|cut.draws|].payload);
      }
    }
  }

  lemma {:induction false} SafeNeverRaises(c: Config, payload: Payload)
    requires Safe(c, payload)
    ensures !MayRaise(c, payload) && forall u: Draw :: !Raises(c, payload, u)
  {
    RaisesIffSomeDraw(c, payload);
  }

  /** While the requests are tame, no flush task ever dies. */
  lemma {:induction false} NoneDies(c: Config, s: State)
    requires Inv(c, s) && Tame(c, s.enqueued)
    ensures forall b :: 0 <= b < |s.cuts| ==> !s.cuts[b].died
    ensures s.task.Some? ==> Live(s.loops[s.task.value])
  {
    hide CutsOk, Replies, Flatten, OneAtATime, OneLoop, Tame, Dies;
    forall b | 0 <= b < |s.cuts| ensures !s.cuts[b].died {
      TameBatchLives(c, s, b);
    }
  }

  /** At most one flush loop is alive. A waiting item has one, unless the last one died, which takes a batch of
      several with an unsafe payload; a full batch is waiting only while the flag is set or the loop is between
      clearing it and cutting; and a loop that has ended leaves the flag down for the next one. */
  lemma {:induction false} NothingIsStranded(c: Config, actions: seq<Action>)
    requires Legal(c, INITIAL, actions)
    ensures var s := Exec(c, INITIAL, actions);
            && (forall i: nat, j: nat :: i < |s.loops| && j < |s.loops| && Live(s.loops[i]) && Live(s.loops[j]) ==> i == j)
            && (s.queue != [] ==>
                  || (exists i: nat :: i < |s.loops| && Live(s.loops[i]))
                  || (s.cuts != [] && s.cuts[|s.cuts| - 1].died && !Tame(c, s.enqueued)))
            && (|s.queue| >= c.batchSize ==> s.wake || exists i: nat :: i < |s.loops| && s.loops[i] == Cleared)
            && (s.task.None? ==> s.queue == [] && !s.wake)
  {
    hide Legal, Exec, Flatten, Replies, OneAtATime, CutsOk, Next, Enabled, Tame;
    Initially(c);
    RunKeepsInv(c, INITIAL, actions);
    var s := Exec(c, INITIAL, actions);
    if Tame(c, s.enqueued) {
      NoneDies(c, s);
    }
    if s.task.Some? {
      assert s.loops[s.task.value] == Current(s).value;
    }
  }

  // ---------------------------------------------------------------- answers

  /** A reply that keeps what its request was promised, in some batch it was part of. */
  ghost predicate Answers(c: Config, items: seq<Item>, reply: Reply) {
    && reply.id < |items|
    && exists size: nat, u ::
         1 <= size <= c.batchSize && Promised(c, items[reply.id].payload, size, u, reply.outcome)
  }

  ghost predicate InOrder(replies: seq<Reply>) {
    forall j, k :: 0 <= j < k < |replies| ==> replies[j].id < replies[k].id
  }

  /** Every reply of a batch keeps its promise. */
  lemma {:induction false} SettledIsPromised(c: Config, cut: Cut, k: nat)
    requires CutOk(c, cut) && k < |cut.draws|
    ensures Promised(c, cut.items[k].payload, |cut.items|, cut.draws[k], CutReplies(c, cut)[k].outcome)
  {
    hide OutcomeOf, Raises, MayRaise, Promised, Slowest, SleepOverflows;
    if |cut.items| == 1 {
      OutcomeIsPromised(c, cut.items[k].payload, cut.draws[k]);
    } else {
      BatchOutcomeIsPromised(c, cut.items[k].payload, |cut.items|, cut.draws[k]);
    }
  }

  /** The replies of one batch that starts at arrival number `start`. */
  lemma {:induction false} BatchReplies(c: Config, items: seq<Item>, cut: Cut, start: nat)
    requires CutOk(c, cut)
    requires start + |cut.items| <= |items| && items[start..start + |cut.items|] == cut.items
    requires forall i :: 0 <= i < |items| ==> items[i].id == i
    ensures forall k :: 0 <= k < |CutReplies(c, cut)| ==>
              CutReplies(c, cut)[k].id == start + k && Answers(c, items, CutReplies(c, cut)[k])
  {
    hide OutcomeOf, Preparable, Raises, MayRaise, Promised;
    forall k | 0 <= k < |CutReplies(c, cut)|
      ensures CutReplies(c, cut)[k].id == start + k && Answers(c, items, CutReplies(c, cut)[k])
    {
      assert cut.items[k] == items[start + k];
      assert CutReplies(c, cut)[k] == ReplyTo(c, items[start + k], |cut.items|, cut.draws[k]);
      SettledIsPromised(c, cut, k);
    }
  }

  ghost predicate AnswersBelow(c: Config, items: seq<Item>, replies: seq<Reply>, bound: nat) {
    && InOrder(replies)
    && forall k :: 0 <= k < |replies| ==> replies[k].id < bound && Answers(c, items, replies[k])
  }

  lemma {:induction false} JoinReplies(c: Config, items: seq<Item>, a: seq<Reply>, b: seq<Reply>, start: nat,
      bound: nat)
    requires AnswersBelow(c, items, a, start) && start + |b| <= bound
    requires forall k :: 0 <= k < |b| ==> b[k].id == start + k && Answers(c, items, b[k])
    ensures AnswersBelow(c, items, a + b, bound)
  {
    hide Answers;
  }

  lemma {:induction false} RepliesInOrder(c: Config, items: seq<Item>, cuts: seq<Cut>)
    requires CutsOk(c, cuts)
    requires Flatten(cuts) <= items
    requires forall i :: 0 <= i < |items| ==> items[i].id == i
    ensures AnswersBelow(c, items, Replies(c, cuts), |Flatten(cuts)|)
  {
    hide Answers, AnswersBelow, ReplyTo, Preparable, Raises, MayRaise;
    if cuts == [] {
      assert AnswersBelow(c, items, [], 0) by { AnswersNothing(c, items); }
    } else {
      var earlier := cuts[..|cuts| - 1];
      var last := cuts[|cuts| - 1];
      assert Flatten(cuts)[..|Flatten(earlier)|] == Flatten(earlier);
      RepliesInOrder(c, items, earlier);
      assert CutOk(c, last);
      BatchReplies(c, items, last, |Flatten(earlier)|);
      JoinReplies(c, items, Replies(c, earlier), CutReplies(c, last), |Flatten(earlier)|, |Flatten(cuts)|);
    }
  }

  lemma {:induction false} AnswersNothing(c: Config, items: seq<Item>)
    ensures AnswersBelow(c, items, [], 0)
  {
  }

  lemma {:induction false} FullBatchesAnswerAll(c: Config, cuts: seq<Cut>)
    requires CutsOk(c, cuts)
    requires forall b :: 0 <= b < |cuts| ==> |cuts[b].draws| == |cuts[b].items|
    ensures |Replies(c, cuts)| == |Flatten(cuts)|
  {
    if cuts != [] {
      FullBatchesAnswerAll(c, cuts[..|cuts| - 1]);
    }
  }

  /** Every future is resolved at most once, in arrival order, with an outcome of its own payload; and when the
      queue is empty, the loop has ended and the requests were tame, each was resolved exactly once. */
  lemma {:induction false} EveryFutureIsResolvedOnce(c: Config, actions: seq<Action>)
    requires Legal(c, INITIAL, actions)
    ensures var s := Exec(c, INITIAL, actions);
            && InOrder(s.answers)
            && (forall k :: 0 <= k < |s.answers| ==> Answers(c, s.enqueued, s.answers[k]))
            && (Tame(c, s.enqueued) && s.queue == [] && s.task.None? ==>
                  |s.answers| == |s.enqueued| && forall k :: 0 <= k < |s.answers| ==> s.answers[k].id == k)
  {
    hide Legal, Exec, Next, Enabled, Answers, Tame, OneLoop, CutOk;
    Initially(c);
    RunKeepsInv(c, INITIAL, actions);
    var s := Exec(c, INITIAL, actions);
    RepliesInOrder(c, s.enqueued, s.cuts);
    if Tame(c, s.enqueued) && s.queue == [] && s.task.None? {
      NoneDies(c, s);
      forall b | 0 <= b < |s.cuts| ensures |s.cuts[b].draws| == |s.cuts[b].items| {
        assert Over(s.cuts[b]);
      }
      FullBatchesAnswerAll(c, s.cuts);
      forall k | 0 <= k < |s.answers| ensures s.answers[k].id == k {
        AtLeast(s.answers, k);
        AtMost(s.answers, k, |s.enqueued|);
      }
    }
  }

  /** An increasing list of numbers below its length is the list of all of them. */
  lemma {:induction false} AtLeast(replies: seq<Reply>, k: nat)
    requires InOrder(replies) && k < |replies|
    ensures replies[k].id >= k
  {
    if k > 0 {
      AtLeast(replies, k - 1);
    }
  }

  lemma {:induction false} AtMost(replies: seq<Reply>, k: nat, bound: nat)
    requires InOrder(replies) && k < |replies| && replies[|replies| - 1].id < bound
    ensures replies[k].id + |replies| - k <= bound
    decreases |replies| - k
  {
    if k + 1 < |replies| {
      AtMost(replies, k + 1, bound);
    }
  }

  /** What a batch has resolved when it is over is what `RunBatch` resolves, given the same draws: it stops at
      the same item, and each reply is the outcome put into its future. */
  lemma {:induction false} CutMatchesRunBatch(c: Config, cut: Cut, rest: seq<Draw>, i: nat)
    requires CutOk(c, cut) && DistinctItems(cut.items)
    requires |cut.draws| + |rest| == |cut.items|
    requires rest == [] || Dies(c, cut, rest[0])
    ensures Reach(c, cut.items, cut.draws + rest) == |cut.draws|
    ensures i < |cut.draws| ==>
              var reply := CutReplies(c, cut)[i];
              var all := Resolutions(c, cut.items[..|cut.draws|], |cut.items|, cut.draws);
              && reply.id in all && all[reply.id] == reply.outcome
              && Promised(c, cut.items[i].payload, |cut.items|, cut.draws[i], reply.outcome)
  {
    hide Resolutions, OutcomeOf, Raises, MayRaise, Preparable, Promised;
    var draws := cut.draws + rest;
    if rest != [] {
      assert draws[|cut.draws|] == rest[0];
    }
    if i < |cut.draws| {
      var items := cut.items[..|cut.draws|];
      EachGetsItsOwn(c, items, |cut.items|, cut.draws, i);
      SettledIsPromised(c, cut, i);
      assert items[i].id in (set j | 0 <= j < |items| :: items[j].id);
    }
  }

  // ---------------------------------------------------------------- unresolved futures

  lemma {:induction false} ReplyIsThere(c: Config, cuts: seq<Cut>, b: nat, i: nat)
    requires CutsOk(c, cuts) && b < |cuts| && i < |cuts[b].draws|
    ensures i < |cuts[b].items| && ReplyTo(c, cuts[b].items[i], |cuts[b].items|, cuts[b].draws[i]) in Replies(c, cuts)
  {
    hide CutOk, ReplyTo;
    CutHolds(c, cuts, b);
    if b == |cuts| - 1 {
      assert CutReplies(c, cuts[b])[i] in CutReplies(c, cuts[b]);
    } else {
      ReplyIsThere(c, cuts[..|cuts| - 1], b, i);
    }
  }

  lemma {:induction false} CutHolds(c: Config, cuts: seq<Cut>, b: nat)
    requires CutsOk(c, cuts) && b < |cuts|
    ensures CutOk(c, cuts[b]) && 1 <= |cuts[b].items| <= c.batchSize && |cuts[b].draws| <= |cuts[b].items|
  {
  }

  lemma {:induction false} ReplyComesFrom(c: Config, cuts: seq<Cut>, k: nat) returns (b: nat, i: nat)
    requires CutsOk(c, cuts) && k < |Replies(c, cuts)|
    ensures b < |cuts| && i < |cuts[b].draws| && i < |cuts[b].items|
    ensures Replies(c, cuts)[k].id == cuts[b].items[i].id
  {
    hide CutOk, OutcomeOf;
    b := |cuts| - 1;
    var earlier := cuts[..b];
    CutHolds(c, cuts, b);
    if k < |Replies(c, earlier)| {
      b, i := ReplyComesFrom(c, earlier, k);
    } else {
      i := k - |Replies(c, earlier)|;
      assert Replies(c, cuts)[k] == CutReplies(c, cuts[b])[i];
    }
  }

  /** Where an item of a batch stands among the arrivals. */
  lemma {:induction false} Position(cuts: seq<Cut>, b: nat, i: nat)
    requires b < |cuts| && i < |cuts[b].items|
    ensures |Flatten(cuts[..b])| + |cuts[b].items| <= |Flatten(cuts)|
    ensures Flatten(cuts)[|Flatten(cuts[..b])| + i] == cuts[b].items[i]
  {
    var earlier := cuts[..|cuts| - 1];
    if b < |cuts| - 1 {
      Position(earlier, b, i);
      assert earlier[..b] == cuts[..b];
    }
  }

  /** Batches do not overlap. */
  lemma {:induction false} LaterStarts(cuts: seq<Cut>, b: nat, i: nat, d: nat)
    requires b <= d < |cuts| && i < |cuts[b].items|
    ensures b < d ==> |Flatten(cuts[..b])| + i < |Flatten(cuts[..d])|
  {
    if b < d {
      Position(cuts[..d], b, i);
      assert cuts[..d][..b] == cuts[..b];
    }
  }

  lemma {:induction false} SameIdSameItem(c: Config, s: State, b: nat, i: nat, d: nat, j: nat)
    requires Inv(c, s) && b <= d < |s.cuts| && i < |s.cuts[b].items| && j < |s.cuts[d].items|
    requires s.cuts[b].items[i].id == s.cuts[d].items[j].id
    ensures b == d && i == j
  {
    hide CutsOk, OneAtATime, OneLoop, TaskOk, Replies, Flatten;
    Position(s.cuts, b, i);
    Position(s.cuts, d, j);
    assert s.enqueued[|Flatten(s.cuts[..b])| + i] == s.cuts[b].items[i];
    assert s.enqueued[|Flatten(s.cuts[..d])| + j] == s.cuts[d].items[j];
    LaterStarts(s.cuts, b, i, d);
  }

  ghost predicate Answered(s: State, id: nat) {
    exists k :: 0 <= k < |s.answers| && s.answers[k].id == id
  }

  /** The futures resolved are exactly those of the batches' resolved prefixes. */
  lemma {:induction false} AnsweredIffReached(c: Config, s: State, b: nat, i: nat)
    requires Inv(c, s) && b < |s.cuts| && i < |s.cuts[b].items|
    ensures Answered(s, s.cuts[b].items[i].id) <==> i < |s.cuts[b].draws|
  {
    hide OneAtATime, Conserved, OneLoop, TaskOk, CutsOk, Replies, OutcomeOf;
    if i < |s.cuts[b].draws| {
      ReplyIsThere(c, s.cuts, b, i);
      var reply := ReplyTo(c, s.cuts[b].items[i], |s.cuts[b].items|, s.cuts[b].draws[i]);
      var k :| 0 <= k < |s.answers| && s.answers[k] == reply;
    } else if Answered(s, s.cuts[b].items[i].id) {
      var k :| 0 <= k < |s.answers| && s.answers[k].id == s.cuts[b].items[i].id;
      var d, j := ReplyComesFrom(c, s.cuts, k);
      if b <= d {
        SameIdSameItem(c, s, b, i, d, j);
      } else {
        SameIdSameItem(c, s, d, j, b, i);
      }
    }
  }

  lemma {:induction false} StepKeepsDeadCut(c: Config, s: State, action: Action, b: nat)
    requires Inv(c, s) && Enabled(c, s, action) && b < |s.cuts| && s.cuts[b].died
    ensures b < |Next(c, s, action).cuts| && Next(c, s, action).cuts[b] == s.cuts[b]
  {
    hide CutsOk, OneAtATime, Conserved, Replies, Flatten, Dies, OutcomeOf;
    if action.Settle? || action.Die? {
      TheLoop(c, s, action.loop);
    }
  }

  lemma {:induction false} RunKeepsDeadCut(c: Config, s: State, actions: seq<Action>, b: nat)
    requires Inv(c, s) && Legal(c, s, actions) && b < |s.cuts| && s.cuts[b].died
    ensures Inv(c, Exec(c, s, actions))
    ensures b < |Exec(c, s, actions).cuts| && Exec(c, s, actions).cuts[b] == s.cuts[b]
    decreases |actions|
  {
    hide Inv, Next, Enabled;
    if actions != [] {
      StepKeepsInv(c, s, actions[0]);
      StepKeepsDeadCut(c, s, actions[0], b);
      RunKeepsDeadCut(c, Next(c, s, actions[0]), actions[1..], b);
    }
  }

  /** Once running a batch has raised, its remaining futures are never resolved, whatever happens next. */
  lemma {:induction false} StrandedForever(c: Config, s: State, actions: seq<Action>, b: nat, i: nat)
    requires Inv(c, s) && Legal(c, s, actions)
    requires b < |s.cuts| && s.cuts[b].died && |s.cuts[b].draws| <= i < |s.cuts[b].items|
    ensures !Answered(Exec(c, s, actions), s.cuts[b].items[i].id)
  {
    hide Inv, Legal, Exec;
    RunKeepsDeadCut(c, s, actions, b);
    AnsweredIffReached(c, Exec(c, s, actions), b, i);
  }

  /** Some future was given up. */
  ghost predicate Strands(s: State) {
    exists b :: 0 <= b < |s.cuts| && s.cuts[b].died
  }

  ghost predicate OnlyArrivals(actions: seq<Action>, payload: Payload) {
    forall i :: 0 <= i < |actions| && actions[i].Enqueue? ==> actions[i].payload == payload
  }

  /** Two requests with an unsafe payload in one batch, and a third behind them. */
  function UnsafeRun(payload: Payload, u: Draw): seq<Action> {
    [Enqueue(payload), Enqueue(payload), Wake(0), TakeBatch(0), Enqueue(payload), Die(0, u)]
  }

  function Stranded(payload: Payload): State {
    var a, b, d := Item(0, payload), Item(1, payload), Item(2, payload);
    State([d], false, Some(0), [Died], [a, b, d], [Cut([a, b], [], true)], [])
  }

  /** The draw with which an unsafe payload makes its batch raise at once. */
  lemma {:induction false} UnsafePairDies(c: Config, payload: Payload) returns (u: Draw)
    requires !Safe(c, payload)
    ensures Dies(c, Cut([Item(0, payload), Item(1, payload)], [], false), u)
  {
    hide ResolveLatency, SleepOverflows, Raises, MayRaise;
    u := 0.0;
    var items := [Item(0, payload), Item(1, payload)];
    if MayRaise(c, payload) {
      RaisesIffSomeDraw(c, payload);
      u :| Raises(c, payload, u);
    } else if AllResolve(c, items) {
      var i := SlowestIsOne(c, items);
      assert items[i].payload == payload;
    } else {
      assert items[0].payload == payload;
    }
  }

  /** The run up to the cut: both requests are in one batch. */
  function Paired(payload: Payload): State {
    var a, b := Item(0, payload), Item(1, payload);
    State([], false, Some(0), [Running(0)], [a, b], [Cut([a, b], [], false)], [])
  }

  lemma {:induction false} UnsafeRunPairs(c: Config, payload: Payload)
    requires c.batchSize >= 2
    ensures var actions := [Enqueue(payload), Enqueue(payload), Wake(0), TakeBatch(0)];
            Legal(c, INITIAL, actions) && Exec(c, INITIAL, actions) == Paired(payload)
  {
    hide Dies;
    var actions := [Enqueue(payload), Enqueue(payload), Wake(0), TakeBatch(0)];
    var a, b := Item(0, payload), Item(1, payload);
    var s1 := Next(c, INITIAL, actions[0]);
    var s2 := Next(c, s1, actions[1]);
    assert s2 == State([a, b], c.batchSize <= 2, Some(0), [Waiting], [a, b], [], []);
    var s3 := Next(c, s2, actions[2]);
    assert [a, b][..2] == [a, b] && [a, b][2..] == [];
    assert Next(c, s3, actions[3]) == Paired(payload);
    LastStep(c, s3, actions, 3, Paired(payload));
    EarlierStep(c, s2, actions, 2, Paired(payload));
    EarlierStep(c, s1, actions, 1, Paired(payload));
    EarlierStep(c, INITIAL, actions, 0, Paired(payload));
    assert actions[0..] == actions;
  }

  lemma {:induction false} UnsafePairStrands(c: Config, payload: Payload, u: Draw)
    requires c.batchSize >= 2
    requires Dies(c, Cut([Item(0, payload), Item(1, payload)], [], false), u)
    ensures var actions := [Enqueue(payload), Die(0, u)];
            Legal(c, Paired(payload), actions) && Exec(c, Paired(payload), actions) == Stranded(payload)
  {
    hide Dies;
    var actions := [Enqueue(payload), Die(0, u)];
    var s := Next(c, Paired(payload), actions[0]);
    assert Next(c, s, actions[1]) == Stranded(payload);
    LastStep(c, s, actions, 1, Stranded(payload));
    EarlierStep(c, Paired(payload), actions, 0, Stranded(payload));
    assert actions[0..] == actions;
  }

  lemma {:induction false} UnsafeRunStrands(c: Config, payload: Payload, u: Draw)
    requires c.batchSize >= 2
    requires Dies(c, Cut([Item(0, payload), Item(1, payload)], [], false), u)
    ensures Legal(c, INITIAL, UnsafeRun(payload, u)) && Exec(c, INITIAL, UnsafeRun(payload, u)) == Stranded(payload)
  {
    hide Dies, Next, Enabled, Legal, Exec;
    var first, last := [Enqueue(payload), Enqueue(payload), Wake(0), TakeBatch(0)], [Enqueue(payload), Die(0, u)];
    UnsafeRunPairs(c, payload);
    UnsafePairStrands(c, payload, u);
    RunsConcatenate(c, INITIAL, first, last);
    assert UnsafeRun(payload, u) == first + last;
  }

  lemma {:induction false} RunsConcatenate(c: Config, s: State, first: seq<Action>, last: seq<Action>)
    requires Legal(c, s, first) && Legal(c, Exec(c, s, first), last)
    ensures Legal(c, s, first + last) && Exec(c, s, first + last) == Exec(c, Exec(c, s, first), last)
    decreases |first|
  {
    hide Enabled, Next;
    if first == [] {
      assert first + last == last;
    } else {
      RunsConcatenate(c, Next(c, s, first[0]), first[1..], last);
      assert (first + last)[1..] == first[1..] + last;
    }
  }

  lemma {:induction false} LastStep(c: Config, s: State, actions: seq<Action>, n: nat, t: State)
    requires n + 1 == |actions| && Enabled(c, s, actions[n]) && Next(c, s, actions[n]) == t
    ensures Legal(c, s, actions[n..]) && Exec(c, s, actions[n..]) == t
  {
    hide Enabled, Next;
    assert actions[n..][1..] == [];
  }

  lemma {:induction false} EarlierStep(c: Config, s: State, actions: seq<Action>, n: nat, t: State)
    requires n + 1 < |actions| && Enabled(c, s, actions[n])
    requires Legal(c, Next(c, s, actions[n]), actions[n + 1..])
    requires Exec(c, Next(c, s, actions[n]), actions[n + 1..]) == t
    ensures Legal(c, s, actions[n..]) && Exec(c, s, actions[n..]) == t
  {
    hide Enabled, Next;
    assert actions[n..][1..] == actions[n + 1..];
  }

  lemma {:induction false} ArrivalsAre(c: Config, actions: seq<Action>, payload: Payload)
    requires OnlyArrivals(actions, payload)
    ensures forall i :: 0 <= i < |Arrivals(actions)| ==> Arrivals(actions)[i] == payload
  {
    if actions != [] {
      ArrivalsAre(c, actions[1..], payload);
    }
  }

  /** Requests with a given payload can strand futures if and only if batches may hold several items and the
      payload is unsafe. */
  lemma {:induction false} PayloadStrandsIff(c: Config, payload: Payload)
    ensures (exists actions :: && Legal(c, INITIAL, actions) && OnlyArrivals(actions, payload)
                               && Strands(Exec(c, INITIAL, actions)))
       <==> c.batchSize >= 2 && !Safe(c, payload)
  {
    if c.batchSize >= 2 && !Safe(c, payload) {
      var u := UnsafePairDies(c, payload);
      UnsafeRunStrands(c, payload, u);
      var actions := UnsafeRun(payload, u);
      StrandedStrands(payload, Exec(c, INITIAL, actions));
      assert OnlyArrivals(actions, payload);
    } else {
      forall actions | Legal(c, INITIAL, actions) && OnlyArrivals(actions, payload)
        ensures !Strands(Exec(c, INITIAL, actions))
      {
        TameRunsNeverStrand(c, actions, payload);
      }
    }
    hide Legal, Exec, Safe, Dies, OnlyArrivals, Strands, Stranded;
  }

  lemma {:induction false} StrandedStrands(payload: Payload, s: State)
    requires s == Stranded(payload)
    ensures Strands(s)
  {
    assert s.cuts[0].died;
  }

  lemma {:induction false} TameRunsNeverStrand(c: Config, actions: seq<Action>, payload: Payload)
    requires Legal(c, INITIAL, actions) && OnlyArrivals(actions, payload)
    requires c.batchSize == 1 || Safe(c, payload)
    ensures !Strands(Exec(c, INITIAL, actions))
  {
    hide Legal, Exec, Safe, OnlyArrivals, Arrivals, Inv;
    Initially(c);
    RunKeepsInv(c, INITIAL, actions);
    RunArrivals(c, INITIAL, actions);
    ArrivalsAre(c, actions, payload);
    var s := Exec(c, INITIAL, actions);
    assert Payloads(s.enqueued) == Arrivals(actions);
    forall i | 0 <= i < |s.enqueued| ensures s.enqueued[i].payload == payload {
      assert Payloads(s.enqueued)[i] == s.enqueued[i].payload;
    }
    NoneDies(c, s);
  }

  /** The simplest unsafe request: a content without a length, such as a number or null, that is not certain to
      fail. Two of them in a batch leave both futures unresolved and the request behind them waiting with no
      live loop, although every latency is a number. */
  lemma {:induction false} ContentWithoutLengthStrands(c: Config, number: Option<Number>)
    requires c.batchSize >= 2 && c.failureRate < 1.0
    ensures var payload := Payload(Unsized(number), None, None);
            exists actions ::
              && Legal(c, INITIAL, actions) && OnlyArrivals(actions, payload)
              && var s := Exec(c, INITIAL, actions);
                 && s.queue != [] && (forall i :: 0 <= i < |s.loops| ==> !Live(s.loops[i]))
                 && !Answered(s, 0) && !Answered(s, 1)
  {
    var payload := Payload(Unsized(number), None, None);
    var u := UnsafePairDies(c, payload);
    UnsafeRunStrands(c, payload, u);
    var s := Exec(c, INITIAL, UnsafeRun(payload, u));
    assert s == Stranded(payload);
    assert OnlyArrivals(UnsafeRun(payload, u), payload);
    hide Legal, Exec, Dies, Stranded;
  }

  // ---------------------------------------------------------------- progress

  /** What the loop still has to do for the requests it already has. */
  function Work(s: State): nat
    requires s.task.Some? ==> s.task.value < |s.loops|
  {
    4 * |s.queue| +
    match Current(s)
    case Some(Waiting) => 2
    case Some(Cleared) => 1
    case Some(Running(b)) =>
      if b < |s.cuts| && |s.cuts[b].draws| <= |s.cuts[b].items|
      then 3 + |s.cuts[b].items| - |s.cuts[b].draws| else 0
    case _ => 0
  }

  lemma {:induction false} TakingProgresses(c: Config, s: State, loop: nat)
    requires LoopIs(s, loop, Cleared) && s.task == Some(loop)
    ensures var t := BatchTaken(c, s, loop);
            (t.task.Some? ==> t.task.value < |t.loops|) && Work(t) < Work(s)
  {
  }

  lemma {:induction false} RunningProgresses(c: Config, s: State, action: Action)
    requires Enabled(c, s, action) && (action.Settle? || action.Return? || action.Die?)
    requires s.task == Some(action.loop) && s.loops[action.loop].cut + 1 == |s.cuts|
    requires |s.cuts[|s.cuts| - 1].draws| <= |s.cuts[|s.cuts| - 1].items|
    ensures Work(Next(c, s, action)) < Work(s)
  {
    hide Dies, ReplyTo;
  }

  lemma {:induction false} WakingProgresses(c: Config, s: State, loop: nat)
    requires LoopIs(s, loop, Waiting) && s.task == Some(loop)
    ensures Work(Next(c, s, Wake(loop))) < Work(s)
  {
  }

  /** Every step of a loop leaves less to do. */
  lemma {:induction false} LoopStepsProgress(c: Config, s: State, action: Action)
    requires Inv(c, s) && Enabled(c, s, action) && !action.Enqueue?
    ensures Inv(c, Next(c, s, action)) && Work(Next(c, s, action)) < Work(s)
  {
    StepKeepsInv(c, s, action);
    EmptyWithoutTask(c, s);
    TheLoop(c, s, action.loop);
    hide Inv, Work, CutOk, Dies, Raises;
    match action
    case Wake(loop) => WakingProgresses(c, s, loop);
    case TakeBatch(loop) => TakingProgresses(c, s, loop);
    case _ =>
      DrawsInside(c, s);
      RunningProgresses(c, s, action);
  }

  lemma {:induction false} DrawsInside(c: Config, s: State)
    requires Inv(c, s) && s.cuts != []
    ensures |s.cuts[|s.cuts| - 1].draws| <= |s.cuts[|s.cuts| - 1].items|
  {
    CutHolds(c, s.cuts, |s.cuts| - 1);
  }

  /** A loop that is alive can always take a step. */
  lemma {:induction false} ALiveLoopCanMove(c: Config, s: State)
    requires Inv(c, s) && s.task.Some? && Live(s.loops[s.task.value])
    ensures exists action: Action :: !action.Enqueue? && Enabled(c, s, action)
  {
    hide OneAtATime, Conserved, OneLoop, Replies, Flatten, Dies;
    var loop := s.task.value;
    if s.loops[loop].Waiting? {
      assert Enabled(c, s, Wake(loop));
    } else if s.loops[loop].Cleared? {
      assert Enabled(c, s, TakeBatch(loop));
    } else {
      var cut := BatchOf(s, loop);
      assert CutOk(c, cut);
      if |cut.draws| == |cut.items| {
        assert Enabled(c, s, Return(loop));
      } else if Dies(c, cut, 0.0) {
        assert Enabled(c, s, Die(loop, 0.0));
      } else {
        assert Enabled(c, s, Settle(loop, 0.0));
      }
    }
  }

  /** With no further arrivals and tame requests, the loop, however it is scheduled, answers every
      request within `Work` steps and then ends: here is one such schedule. */
  lemma {:induction false} Drains(c: Config, s: State) returns (actions: seq<Action>)
    requires Inv(c, s) && Tame(c, s.enqueued)
    ensures Legal(c, s, actions) && Arrivals(actions) == [] && |actions| <= Work(s)
    ensures var t := Exec(c, s, actions); t.enqueued == s.enqueued && t.queue == [] && t.task.None?
    decreases Work(s)
  {
    hide Inv, Next, Enabled, Tame, Work;
    EmptyWithoutTask(c, s);
    if s.task.None? {
      return [];
    }
    NoneDies(c, s);
    ALiveLoopCanMove(c, s);
    var action: Action :| !action.Enqueue? && Enabled(c, s, action);
    LoopStepsProgress(c, s, action);
    SameRequests(c, s, action);
    var rest := Drains(c, Next(c, s, action));
    actions := [action] + rest;
    assert actions[1..] == rest;
  }

  lemma {:induction false} EmptyWithoutTask(c: Config, s: State)
    requires Inv(c, s)
    ensures s.task.Some? ==> s.task.value < |s.loops|
    ensures s.task.None? ==> s.queue == []
  {
  }

  lemma {:induction false} SameRequests(c: Config, s: State, action: Action)
    requires Enabled(c, s, action) && !action.Enqueue?
    ensures Next(c, s, action).enqueued == s.enqueued
  {
  }

  /** And no schedule is longer. */
  lemma {:induction false} NoScheduleIsLonger(c: Config, s: State, actions: seq<Action>)
    requires Inv(c, s) && Legal(c, s, actions)
    requires forall i :: 0 <= i < |actions| ==> !actions[i].Enqueue?
    ensures s.task.Some? ==> s.task.value < |s.loops|
    ensures |actions| <= Work(s)
    decreases |actions|
  {
    hide Inv, Next, Enabled, Work;
    EmptyWithoutTask(c, s);
    if actions != [] {
      LoopStepsProgress(c, s, actions[0]);
      NoScheduleIsLonger(c, Next(c, s, actions[0]), actions[1..]);
    }
  }
}
