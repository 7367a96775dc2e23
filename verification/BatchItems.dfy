/** What one payload resolves to, and how a cut batch resolves its futures. */
module BatchItems {
  import opened Prelude

  /** A number in a JSON document as Python holds it. */
  datatype Number = Integer(n: int) | Fraction(x: real) | PosInf | NegInf | NotANumber

  /** `input.content` is any JSON value. Strings, lists and objects have a length; numbers, booleans and null
      have none. An absent content counts as the empty string. */
  datatype Content = Sized(text: string) | Unsized(number: Option<Number>)

  /** The two options are `None` when absent or not a number. */
  datatype Payload = Payload(content: Content, latency: Option<Number>, failureRate: Option<Number>)

  datatype InferenceError =
    SimulatedFailure | LatencyNotFinite | SleepTooLong | RateTooLarge | ContentHasNoLength

  datatype Outcome =
    | Answer(echo: Content, length: nat, latencyMs: int, batchSize: nat)
    | Failure(error: InferenceError)

  datatype Item = Item(id: nat, payload: Payload)

  type Positive = n: nat | n >= 1 witness 1

  type Probability = x: real | 0.0 <= x <= 1.0 witness 0.0

  /** What `random.random()` returns. */
  type Draw = u: real | 0.0 <= u < 1.0 witness 0.0

  datatype Config = Config(batchSize: Positive, baseMs: int, overheadMs: nat, failureRate: Probability)

  function TwoTo(n: nat): real {
    if n == 0 then 1.0 else 2.0 * TwoTo(n - 1)
  }

  /** An exact value that no double can hold: rounding to nearest takes it past the largest one. */
  predicate Overflows(x: real) {
    var limit := TwoTo(1024) - TwoTo(970);
    x >= limit || x <= -limit
  }

  // ---------------------------------------------------------------- one payload

  /** `int` refuses infinities and not-a-number, and accepts every integer. */
  function ResolveLatency(c: Config, payload: Payload): Option<int> {
    match payload.latency
    case None => Some(c.baseMs)
    case Some(Integer(n)) => Some(n)
    case Some(Fraction(x)) => Some(Truncate(x))
    case _ => None
  }

  /** An `int` divided by 1000 must fit in a float. */
  predicate SleepOverflows(ms: int) {
    Overflows(ms as real / 1000.0)
  }

  function Clamp(x: real): Probability {
    if x < 0.0 then 0.0 else if x > 1.0 then 1.0 else x
  }

  /** The rate a draw is compared with, unless `float` overflows. Not-a-number is never exceeded. */
  function FailureRate(c: Config, payload: Payload): Option<Probability> {
    match payload.failureRate
    case None => Some(c.failureRate)
    case Some(Integer(n)) => if Overflows(n as real) then None else Some(Clamp(n as real))
    case Some(Fraction(x)) => Some(Clamp(x))
    case Some(PosInf) => Some(1.0)
    case Some(NegInf) => Some(0.0)
    case Some(NotANumber) => Some(0.0)
  }

  function Length(content: Content): Option<nat> {
    match content
    case Sized(text) => Some(|text|)
    case Unsized(_) => None
  }

  /** The step that fails the item or builds its result. */
  function Finalized(c: Config, payload: Payload, latencyMs: int, batchSize: nat, u: Draw): Outcome {
    match FailureRate(c, payload)
    case None => Failure(RateTooLarge)
    case Some(rate) =>
      if u < rate then Failure(SimulatedFailure)
      else
        match Length(payload.content)
        case None => Failure(ContentHasNoLength)
        case Some(n) => Answer(payload.content, n, latencyMs, batchSize)
  }

  /** The result, or the exception met, when a payload is run in a batch of `batchSize` with draw `u`. Alone,
      it sleeps for its own latency. */
  function OutcomeOf(c: Config, payload: Payload, batchSize: nat, u: Draw): Outcome {
    match ResolveLatency(c, payload)
    case None => Failure(LatencyNotFinite)
    case Some(ms) =>
      if batchSize == 1 && SleepOverflows(if ms > 1 then ms else 1) then Failure(SleepTooLong)
      else Finalized(c, payload, ms, batchSize, u)
  }

  // ---------------------------------------------------------------- what an outcome promises

  /** The draw falls below the failure rate, the request's own if it gives one. */
  predicate DrawnToFail(c: Config, payload: Payload, u: Draw) {
    match payload.failureRate
    case None => u < c.failureRate
    case Some(Integer(n)) => u < n as real
    case Some(Fraction(x)) => u < x
    case Some(PosInf) => true
    case _ => false
  }

  /** The latency is the request's own integer, its fraction without the part behind the point, or else the
      configured one. */
  predicate LatencyIs(c: Config, payload: Payload, ms: int) {
    match payload.latency
    case None => ms == c.baseMs
    case Some(Integer(n)) => ms == n
    case Some(Fraction(x)) =>
      if x >= 0.0 then 0 <= ms && ms as real <= x < ms as real + 1.0
      else ms <= 0 && ms as real - 1.0 < x <= ms as real
    case _ => false
  }

  /** What a resolved future promises its request, run in a batch of `batchSize` with draw `u`: the simulated
      failure exactly when the draw says so; otherwise the content echoed, its own length, the latency asked for
      and the size of the batch. The other exceptions reach a future only when it is alone in its batch. */
  ghost predicate Promised(c: Config, payload: Payload, batchSize: nat, u: Draw, outcome: Outcome) {
    match outcome
    case Answer(echo, length, latencyMs, size) =>
      && !DrawnToFail(c, payload, u)
      && echo == payload.content && echo.Sized? && length == |echo.text|
      && LatencyIs(c, payload, latencyMs) && size == batchSize
    case Failure(SimulatedFailure) => DrawnToFail(c, payload, u)
    case Failure(LatencyNotFinite) => batchSize == 1 && payload.latency in {Some(PosInf), Some(NegInf), Some(NotANumber)}
    case Failure(SleepTooLong) => batchSize == 1 && exists ms :: LatencyIs(c, payload, ms) && Overflows(ms as real / 1000.0)
    case Failure(RateTooLarge) =>
      && batchSize == 1 && payload.failureRate.Some? && payload.failureRate.value.Integer?
      && Overflows(payload.failureRate.value.n as real)
    case Failure(ContentHasNoLength) => batchSize == 1 && payload.content.Unsized? && !DrawnToFail(c, payload, u)
  }

  /** Running a payload alone keeps the promise. */
  lemma {:induction false} OutcomeIsPromised(c: Config, payload: Payload, u: Draw)
    ensures Promised(c, payload, 1, u, OutcomeOf(c, payload, 1, u))
  {
    LatencyResolves(c, payload);
    BaseDoesNotOverflow();
    hide Overflows, TwoTo;
  }

  /** And so does running it in a larger batch, when it does not raise there. */
  lemma {:induction false} BatchOutcomeIsPromised(c: Config, payload: Payload, batchSize: nat, u: Draw)
    requires batchSize > 1 && ResolveLatency(c, payload).Some? && !Raises(c, payload, u)
    ensures Promised(c, payload, batchSize, u, OutcomeOf(c, payload, batchSize, u))
  {
    LatencyResolves(c, payload);
    hide Overflows, TwoTo;
  }

  lemma {:induction false} LatencyResolves(c: Config, payload: Payload)
    ensures forall ms :: ResolveLatency(c, payload) == Some(ms) ==> LatencyIs(c, payload, ms)
  {
  }

  lemma {:induction false} BaseDoesNotOverflow()
    ensures !SleepOverflows(1)
  {
    LimitIsLarge(1024, 970);
  }

  lemma {:induction false} LimitIsLarge(high: nat, low: nat)
    requires high > low
    ensures TwoTo(high) - TwoTo(low) >= 1.0 && TwoTo(high) >= 1.0 && TwoTo(low) >= 1.0
  {
    if low > 0 {
      LimitIsLarge(high - 1, low - 1);
    } else if high > 1 {
      LimitIsLarge(high - 1, low);
    }
  }

  lemma {:induction false} TwoToAdds(a: nat, b: nat)
    ensures TwoTo(a + b) == TwoTo(a) * TwoTo(b)
  {
    if a > 0 {
      TwoToAdds(a - 1, b);
    }
  }

  /** The largest double with 53 bits of precision is (2^53 - 1) * 2^971. An exact value overflows exactly when it
      is no nearer to that one than to the next multiple of 2^971. */
  lemma {:induction false} OverflowsPastTheLargest(x: real)
    ensures var largest := (TwoTo(53) - 1.0) * TwoTo(971);
            Overflows(x) <==> x >= largest + TwoTo(971) / 2.0 || x <= -largest - TwoTo(971) / 2.0
  {
    TwoToAdds(53, 971);
    TwoToAdds(1, 970);
    assert TwoTo(0) == 1.0 && TwoTo(1) == 2.0;
    hide TwoTo;
    assert (TwoTo(53) - 1.0) * TwoTo(971) == TwoTo(1024) - TwoTo(971);
  }

  /** In the loop over a larger batch only the simulated failure is caught. */
  predicate Raises(c: Config, payload: Payload, u: Draw) {
    match FailureRate(c, payload)
    case None => true
    case Some(rate) => u >= rate && Length(payload.content).None?
  }

  /** It raises there exactly when the rate is an integer too large for a float, or the draw lets it through and
      its content has no length. */
  lemma {:induction false} RaisesIff(c: Config, payload: Payload, u: Draw)
    ensures Raises(c, payload, u) <==>
              || (payload.failureRate.Some? && payload.failureRate.value.Integer?
                  && Overflows(payload.failureRate.value.n as real))
              || (!DrawnToFail(c, payload, u) && payload.content.Unsized?)
  {
    hide Overflows;
  }

  // ---------------------------------------------------------------- a batch of several

  predicate AllResolve(c: Config, items: seq<Item>) {
    forall i :: 0 <= i < |items| ==> ResolveLatency(c, items[i].payload).Some?
  }

  function Slowest(c: Config, items: seq<Item>): int
    requires items != [] && AllResolve(c, items)
  {
    var n := |items| - 1;
    var last := ResolveLatency(c, items[n].payload).value;
    if n == 0 then last
    else
      var before := Slowest(c, items[..n]);
      if last > before then last else before
  }

  /** The latencies resolve, and the sleep for the slowest can be expressed. */
  predicate Preparable(c: Config, items: seq<Item>)
    requires items != []
  {
    AllResolve(c, items) && !SleepOverflows(Slowest(c, items) + c.overheadMs)
  }

  /** How many items the loop finalizes before one raises. */
  function FirstRaising(c: Config, items: seq<Item>, draws: seq<Draw>): (k: nat)
    requires |items| == |draws|
    ensures k <= |items|
    ensures forall i :: 0 <= i < k ==> !Raises(c, items[i].payload, draws[i])
    ensures k < |items| ==> Raises(c, items[k].payload, draws[k])
  {
    if items == [] || Raises(c, items[0].payload, draws[0]) then 0
    else 1 + FirstRaising(c, items[1..], draws[1..])
  }

  /** How many futures of a batch get resolved. */
  function Reach(c: Config, items: seq<Item>, draws: seq<Draw>): (k: nat)
    requires |items| == |draws| && items != []
    ensures k <= |items|
  {
    if |items| == 1 then 1
    else if !Preparable(c, items) then 0
    else FirstRaising(c, items, draws)
  }

  /** The futures resolved when all of `items` are finalized in a batch of `batchSize`. */
  function Resolutions(c: Config, items: seq<Item>, batchSize: nat, draws: seq<Draw>): map<nat, Outcome>
    requires |items| == |draws|
  {
    if items == [] then map[]
    else
      var n := |items| - 1;
      Resolutions(c, items[..n], batchSize, draws[..n])
        [items[n].id := OutcomeOf(c, items[n].payload, batchSize, draws[n])]
  }

  ghost predicate DistinctItems(items: seq<Item>) {
    forall j, k :: 0 <= j < k < |items| ==> items[j].id != items[k].id
  }

  /** With distinct items every future gets the outcome of its own payload. */
  lemma {:induction false} EachGetsItsOwn(c: Config, items: seq<Item>, batchSize: nat, draws: seq<Draw>, i: nat)
    requires |items| == |draws| && i < |items|
    requires DistinctItems(items)
    ensures var all := Resolutions(c, items, batchSize, draws);
            && all.Keys == (set j | 0 <= j < |items| :: items[j].id)
            && all[items[i].id] == OutcomeOf(c, items[i].payload, batchSize, draws[i])
  {
    hide OutcomeOf;
    var n := |items| - 1;
    if n > 0 {
      EachGetsItsOwn(c, items[..n], batchSize, draws[..n], if i < n then i else 0);
      assert forall j :: 0 <= j < n ==> items[..n][j].id == items[j].id;
    }
    assert (set j | 0 <= j < |items| :: items[j].id) == (set j | 0 <= j < n :: items[..n][j].id) + {items[n].id};
  }

  /** The slowest latency is that of some item, and no item's is larger. */
  lemma {:induction false} SlowestIsOne(c: Config, items: seq<Item>) returns (i: nat)
    requires items != [] && AllResolve(c, items)
    ensures i < |items| && ResolveLatency(c, items[i].payload) == Some(Slowest(c, items))
    ensures forall j :: 0 <= j < |items| ==> ResolveLatency(c, items[j].payload).value <= Slowest(c, items)
  {
    var n := |items| - 1;
    i := n;
    if n > 0 {
      var j := SlowestIsOne(c, items[..n]);
      if ResolveLatency(c, items[n].payload).value <= Slowest(c, items[..n]) {
        i := j;
      }
    }
  }

  // ---------------------------------------------------------------- payloads that cannot hurt

  /** Some draw makes the loop over a larger batch raise at this payload. */
  predicate MayRaise(c: Config, payload: Payload) {
    match FailureRate(c, payload)
    case None => true
    case Some(rate) => rate < 1.0 && Length(payload.content).None?
  }

  /** A payload that can do no harm to the batch it is part of: its latency resolves and can be slept, its
      failure rate fits in a float, and its content has a length unless it is certain to fail anyway. */
  predicate Safe(c: Config, payload: Payload) {
    && ResolveLatency(c, payload).Some?
    && !SleepOverflows(ResolveLatency(c, payload).value + c.overheadMs)
    && !MayRaise(c, payload)
  }

  lemma {:induction false} RaisesIffSomeDraw(c: Config, payload: Payload)
    ensures MayRaise(c, payload) <==> exists u: Draw :: Raises(c, payload, u)
  {
    if FailureRate(c, payload).None? {
      assert Raises(c, payload, 0.0);
    } else if MayRaise(c, payload) {
      var rate: Draw := FailureRate(c, payload).value;
      assert Raises(c, payload, rate);
    }
  }

  lemma {:induction false} SafeBatchesArePreparable(c: Config, items: seq<Item>)
    requires items != [] && forall i :: 0 <= i < |items| ==> Safe(c, items[i].payload)
    ensures Preparable(c, items)
  {
    hide SleepOverflows, MayRaise, ResolveLatency, Slowest;
    var i := SlowestIsOne(c, items);
    assert Safe(c, items[i].payload);
  }

  // ---------------------------------------------------------------- running a batch

  class Futures {
    var resolved: map<nat, Outcome>

    constructor ()
      ensures resolved == map[]
    {
      resolved := map[];
    }

    /** `set_result` and `set_exception`: a future accepts one of them, once. */
    method Resolve(id: nat, outcome: Outcome)
      requires id !in resolved
      modifies this
      ensures resolved == old(resolved)[id := outcome]
    {
      resolved := resolved[id := outcome];
    }
  }

  /** `_run_single`: the result, or the exception its caller hands to the future. */
  method RunSingle(c: Config, payload: Payload, u: Draw) returns (outcome: Outcome)
    ensures outcome == OutcomeOf(c, payload, 1, u)
    ensures Promised(c, payload, 1, u, outcome)
  {
    OutcomeIsPromised(c, payload, u);
    hide Promised;
    var latency := ResolveLatency(c, payload);
    if latency.None? {
      return Failure(LatencyNotFinite);
    }
    var sleepMs := if latency.value > 1 then latency.value else 1;
    if SleepOverflows(sleepMs) {
      return Failure(SleepTooLong);
    }
    var rate := FailureRate(c, payload);
    if rate.None? {
      return Failure(RateTooLarge);
    }
    if u < rate.value {
      return Failure(SimulatedFailure);
    }
    var length := Length(payload.content);
    if length.None? {
      return Failure(ContentHasNoLength);
    }
    return Answer(payload.content, length.value, latency.value, 1);
  }

  /** Every latency of a batch, once they are resolved and slept for; `None` when either raises. */
  method Prepare(c: Config, items: seq<Item>) returns (latencies: Option<seq<int>>)
    requires items != []
    ensures latencies.Some? <==> Preparable(c, items)
    ensures latencies.Some? ==>
              && |latencies.value| == |items|
              && forall j :: 0 <= j < |items| ==> ResolveLatency(c, items[j].payload) == Some(latencies.value[j])
  {
    hide ResolveLatency, SleepOverflows;
    var found: seq<int> := [];
    var slowest := 0;
    for i := 0 to |items|
      invariant |found| == i
      invariant forall j :: 0 <= j < i ==> ResolveLatency(c, items[j].payload) == Some(found[j])
      invariant i > 0 ==> AllResolve(c, items[..i]) && slowest == Slowest(c, items[..i])
    {
      var latency := ResolveLatency(c, items[i].payload);
      if latency.None? {
        return None;
      }
      assert items[..i + 1][..i] == items[..i];
      found := found + [latency.value];
      if i == 0 || latency.value > slowest {
        slowest := latency.value;
      }
    }
    assert items[..|items|] == items;
    if SleepOverflows(slowest + c.overheadMs) {
      return None;
    }
    return Some(found);
  }

  /** The loop body: the item's future gets its result or its simulated failure, unless the item raises. */
  method FinalizeItem(c: Config, futures: Futures, item: Item, latencyMs: int, batchSize: nat, u: Draw)
    returns (raised: bool)
    requires batchSize > 1 && ResolveLatency(c, item.payload) == Some(latencyMs) && item.id !in futures.resolved
    modifies futures
    ensures raised <==> Raises(c, item.payload, u)
    ensures futures.resolved == if raised then old(futures.resolved)
                                else old(futures.resolved)[item.id := OutcomeOf(c, item.payload, batchSize, u)]
    ensures !raised ==>
              item.id in futures.resolved && Promised(c, item.payload, batchSize, u, futures.resolved[item.id])
  {
    if !Raises(c, item.payload, u) {
      BatchOutcomeIsPromised(c, item.payload, batchSize, u);
    }
    hide Promised;
    var rate := FailureRate(c, item.payload);
    if rate.None? {
      return true;
    }
    if u < rate.value {
      futures.Resolve(item.id, Failure(SimulatedFailure));
      return false;
    }
    var length := Length(item.payload.content);
    if length.None? {
      return true;
    }
    futures.Resolve(item.id, Answer(item.payload.content, length.value, latencyMs, batchSize));
    raised := false;
  }

  /** The loop over a larger batch. It leaves the futures from the first item that raises on untouched. */
  method FinalizeItems(c: Config, futures: Futures, items: seq<Item>, latencies: seq<int>, draws: seq<Draw>)
    returns (raised: bool)
    requires |items| == |draws| == |latencies| && |items| > 1
    requires forall j :: 0 <= j < |items| ==> ResolveLatency(c, items[j].payload) == Some(latencies[j])
    requires DistinctItems(items)
    requires forall j :: 0 <= j < |items| ==> items[j].id !in futures.resolved
    modifies futures
    ensures var k := FirstRaising(c, items, draws);
            && (raised <==> k < |items|)
            && futures.resolved == old(futures.resolved) + Resolutions(c, items[..k], |items|, draws[..k])
  {
    hide ResolveLatency, Raises, OutcomeOf, Resolutions, FirstRaising;
    ghost var k := FirstRaising(c, items, draws);
    NothingResolved(c, items, draws);
    for i := 0 to |items|
      invariant i <= k
      invariant futures.resolved == old(futures.resolved) + Resolutions(c, items[..i], |items|, draws[..i])
      invariant forall j :: i <= j < |items| ==> items[j].id !in futures.resolved
    {
      OneMoreResolved(c, items, draws, i);
      raised := FinalizeItem(c, futures, items[i], latencies[i], |items|, draws[i]);
      if raised {
        return;
      }
    }
    raised := false;
  }

  lemma {:induction false} NothingResolved(c: Config, items: seq<Item>, draws: seq<Draw>)
    requires |items| == |draws|
    ensures Resolutions(c, items[..0], |items|, draws[..0]) == map[]
  {
  }

  lemma {:induction false} OneMoreResolved(c: Config, items: seq<Item>, draws: seq<Draw>, i: nat)
    requires |items| == |draws| && i < |items|
    ensures Resolutions(c, items[..i + 1], |items|, draws[..i + 1])
         == Resolutions(c, items[..i], |items|, draws[..i])[items[i].id := OutcomeOf(c, items[i].payload, |items|, draws[i])]
  {
    hide OutcomeOf;
    assert items[..i + 1][..i] == items[..i] && draws[..i + 1][..i] == draws[..i];
  }

  /** Every future a batch resolves keeps its promise. */
  lemma {:induction false} ReachIsPromised(c: Config, items: seq<Item>, draws: seq<Draw>)
    requires |items| == |draws| && items != [] && DistinctItems(items)
    ensures var k := Reach(c, items, draws);
            var all := Resolutions(c, items[..k], |items|, draws[..k]);
            forall j :: 0 <= j < k ==>
              items[j].id in all && Promised(c, items[j].payload, |items|, draws[j], all[items[j].id])
  {
    hide OutcomeOf, Promised, Raises, Resolutions, SleepOverflows, ResolveLatency;
    var k := Reach(c, items, draws);
    var all := Resolutions(c, items[..k], |items|, draws[..k]);
    forall j | 0 <= j < k
      ensures items[j].id in all && Promised(c, items[j].payload, |items|, draws[j], all[items[j].id])
    {
      EachGetsItsOwn(c, items[..k], |items|, draws[..k], j);
      assert items[..k][j].id in (set i | 0 <= i < k :: items[..k][i].id);
      if |items| == 1 {
        OutcomeIsPromised(c, items[j].payload, draws[j]);
      } else {
        BatchOutcomeIsPromised(c, items[j].payload, |items|, draws[j]);
      }
    }
  }

  /** `_run_batch`. A batch of one always resolves its future, if only with an exception. A larger batch raises
      exactly when a latency cannot be resolved, the sleep cannot be expressed, or an item raises in the loop;
      and it has then resolved just the futures before the first such item. */
  method RunBatch(c: Config, futures: Futures, items: seq<Item>, draws: seq<Draw>) returns (raised: bool)
    requires |items| == |draws| && items != []
    requires DistinctItems(items)
    requires forall j :: 0 <= j < |items| ==> items[j].id !in futures.resolved
    modifies futures
    ensures raised <==>
              && |items| > 1
              && (!Preparable(c, items) || exists i :: 0 <= i < |items| && Raises(c, items[i].payload, draws[i]))
    ensures var k := Reach(c, items, draws);
            && futures.resolved == old(futures.resolved) + Resolutions(c, items[..k], |items|, draws[..k])
            && (raised <==> k < |items|)
            && forall j :: 0 <= j < k ==>
                 && items[j].id in futures.resolved
                 && Promised(c, items[j].payload, |items|, draws[j], futures.resolved[items[j].id])
  {
    ReachIsPromised(c, items, draws);
    hide OutcomeOf, Raises, Promised;
    if |items| == 1 {
      NothingResolved(c, items, draws);
      var outcome := RunSingle(c, items[0].payload, draws[0]);
      OneMoreResolved(c, items, draws, 0);
      futures.Resolve(items[0].id, outcome);
      return false;
    }
    var latencies := Prepare(c, items);
    if latencies.None? {
      return true;
    }
    raised := FinalizeItems(c, futures, items, latencies.value, draws);
  }
}
