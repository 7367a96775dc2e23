/** What `_handle_message` does with one record: skip, acknowledge, republish or dead-letter. */
module MessageHandler {
  import opened Prelude
  import opened Domain
  import opened Decimal
  import opened Headers
  import opened Backoff

  const RETRY_COUNT := "retry-count"
  const ERROR_REASON := "error-reason"
  const ORIGINAL_TOPIC := "original-topic"
  const RETRY_AT := "retry-at"

  /** The topics one worker reads from and republishes to. */
  datatype Route = Route(consumeTopic: Topic, retryTopic: Topic, dlqTopic: Topic)

  /** A message as it lies on a topic. */
  datatype Delivery = Delivery(topic: Topic, headers: WireHeaders, message: Message)

  /** A send may deliver, fail, or deliver although it raises. */
  datatype SendFault = Delivered | NotDelivered | DeliveredButRaised

  datatype RoleReply = Reply(ok: bool, reason: Option<string>) | RoleRaises

  /** What one handling meets: the role handler's reply, the clock, and the fate of a send. */
  datatype Encounter = Encounter(reply: RoleReply, now: int, send: SendFault)

  datatype Handled =
    | Skipped
    | Acknowledged
    | Republished(delivery: Delivery)
    | DeadLettered(delivery: Delivery)

  function Lookup(headers: map<string, string>, key: string, default: string): string {
    if key in headers then headers[key] else default
  }

  function RetryCountOf(headers: map<string, string>): nat {
    match ParseInt(Lookup(headers, RETRY_COUNT, "0"))
    case None => 0
    case Some(n) => if n < 0 then 0 else n
  }

  function RetryDueAt(headers: map<string, string>): int {
    if RETRY_AT !in headers then 0 else ParseInt(headers[RETRY_AT]).GetOr(0)
  }

  /** A record on the retry topic that some other role put there. */
  predicate Foreign(route: Route, topic: Topic, headers: map<string, string>) {
    topic == route.retryTopic && Lookup(headers, ORIGINAL_TOPIC, route.consumeTopic) != route.consumeTopic
  }

  function ErrorReason(reason: Option<string>): string {
    Strip(if reason.None? || reason.value == "" then "unknown processing error" else reason.value)
  }

  function RetryItems(count: nat, origin: Topic, reason: string, dueAt: int): seq<(string, string)> {
    [(RETRY_COUNT, IntToString(count)), (ORIGINAL_TOPIC, origin), (ERROR_REASON, reason), (RETRY_AT, IntToString(dueAt))]
  }

  function DlqItems(count: nat, origin: Topic, reason: string): seq<(string, string)> {
    [(RETRY_COUNT, IntToString(count)), (ORIGINAL_TOPIC, origin), (ERROR_REASON, reason)]
  }

  /** What happens to a record whose handler replied. */
  function Disposition(route: Route, policy: Policy, d: Delivery, ok: bool, reason: Option<string>, now: int): Handled {
    var headers := Decoded(d.headers);
    if Foreign(route, d.topic, headers) then Skipped
    else if ok then Acknowledged
    else
      var count := RetryCountOf(headers);
      var origin := Lookup(headers, ORIGINAL_TOPIC, d.topic);
      if count < policy.maxCount then
        var dueAt := now + Millis(Delay(policy, count + 1));
        Republished(Delivery(route.retryTopic,
                             Encoded(RetryItems(count + 1, origin, ErrorReason(reason), dueAt)), d.message))
      else
        DeadLettered(Delivery(route.dlqTopic, Encoded(DlqItems(count, origin, ErrorReason(reason))), d.message))
  }

  /** The effect of one call: whether it raised, and what reached a topic. */
  datatype Effect = Effect(raised: bool, sent: seq<Delivery>)

  function SendEffect(d: Delivery, fault: SendFault): Effect {
    Effect(!fault.Delivered?, if fault.NotDelivered? then [] else [d])
  }

  function Handle(route: Route, policy: Policy, d: Delivery, met: Encounter): Effect {
    if Foreign(route, d.topic, Decoded(d.headers)) then Effect(false, [])
    else if met.reply.RoleRaises? then Effect(true, [])
    else
      match Disposition(route, policy, d, met.reply.ok, met.reply.reason, met.now)
      case Skipped => Effect(false, [])
      case Acknowledged => Effect(false, [])
      case Republished(next) => SendEffect(next, met.send)
      case DeadLettered(next) => SendEffect(next, met.send)
  }

  /** A retry record written by this worker decodes to what was written. */
  lemma {:induction false} RetryHeadersDecode(count: nat, origin: Topic, reason: string, dueAt: int)
    ensures var headers := Decoded(Encoded(RetryItems(count, origin, reason, dueAt)));
            && RetryCountOf(headers) == count && RetryDueAt(headers) == dueAt
            && Lookup(headers, ORIGINAL_TOPIC, "") == origin && ORIGINAL_TOPIC in headers
            && Lookup(headers, ERROR_REASON, "") == reason && ERROR_REASON in headers
            && RETRY_AT in headers
  {
    var items := RetryItems(count, origin, reason, dueAt);
    KeysDiffer();
    assert items[0] in items && items[1] in items && items[2] in items && items[3] in items;
    HeadersSurvive(items, RETRY_COUNT, IntToString(count));
    HeadersSurvive(items, ORIGINAL_TOPIC, origin);
    HeadersSurvive(items, ERROR_REASON, reason);
    HeadersSurvive(items, RETRY_AT, IntToString(dueAt));
    IntRoundTrip(count);
    IntRoundTrip(dueAt);
  }

  /** A dead letter decodes to its count, origin and reason, and has no due time. */
  lemma {:induction false} DlqHeadersDecode(count: nat, origin: Topic, reason: string)
    ensures var headers := Decoded(Encoded(DlqItems(count, origin, reason)));
            && RetryCountOf(headers) == count
            && Lookup(headers, ORIGINAL_TOPIC, "") == origin && ORIGINAL_TOPIC in headers
            && Lookup(headers, ERROR_REASON, "") == reason && ERROR_REASON in headers
            && RETRY_AT !in headers
  {
    var items := DlqItems(count, origin, reason);
    var headers := Decoded(Encoded(items));
    KeysDiffer();
    assert items[0] in items && items[1] in items && items[2] in items;
    HeadersSurvive(items, RETRY_COUNT, IntToString(count));
    HeadersSurvive(items, ORIGINAL_TOPIC, origin);
    HeadersSurvive(items, ERROR_REASON, reason);
    IntRoundTrip(count);
    if RETRY_AT in headers {
      HeadersSurvive(items, RETRY_AT, headers[RETRY_AT]);
    }
  }

  /** Only a header that reads as a positive number gives a count; only one that reads as a number, a due time. */
  lemma {:induction false} NumbersComeFromHeaders(headers: map<string, string>, n: int)
    requires n != 0
    ensures RetryCountOf(headers) == n <==>
              n > 0 && RETRY_COUNT in headers && ParseInt(headers[RETRY_COUNT]) == Some(n)
    ensures RetryDueAt(headers) == n <==> RETRY_AT in headers && ParseInt(headers[RETRY_AT]) == Some(n)
  {
    hide ParseInt;
    IntRoundTrip(0);
    assert IntToString(0) == "0";
  }

  lemma {:induction false} KeysDiffer()
    ensures RETRY_COUNT != ORIGINAL_TOPIC && RETRY_COUNT != ERROR_REASON && RETRY_COUNT != RETRY_AT
    ensures ORIGINAL_TOPIC != ERROR_REASON && ORIGINAL_TOPIC != RETRY_AT && ERROR_REASON != RETRY_AT
  {
    assert |RETRY_COUNT| == 11 && |ORIGINAL_TOPIC| == 14 && |ERROR_REASON| == 12 && |RETRY_AT| == 8;
  }

  // ---------------------------------------------------------------- what a handling amounts to

  /** A record on the retry topic that names another role's topic as its origin. */
  predicate NamesAnotherRole(route: Route, d: Delivery) {
    var headers := Decoded(d.headers);
    d.topic == route.retryTopic && ORIGINAL_TOPIC in headers && headers[ORIGINAL_TOPIC] != route.consumeTopic
  }

  /** `next` takes the place of `d` after a failure: the same payload and origin, the reason, and either the next
      count with its due time on the retry topic, or, at the limit, the final count on the dead-letter topic. */
  ghost predicate Replaces(route: Route, policy: Policy, d: Delivery, reason: Option<string>, now: int, next: Delivery) {
    var before, after := Decoded(d.headers), Decoded(next.headers);
    var count := RetryCountOf(before);
    && next.message == d.message
    && ORIGINAL_TOPIC in after
    && after[ORIGINAL_TOPIC] == (if ORIGINAL_TOPIC in before then before[ORIGINAL_TOPIC] else d.topic)
    && ERROR_REASON in after
    && after[ERROR_REASON] == Strip(if reason.None? || reason.value == "" then "unknown processing error" else reason.value)
    && if count < policy.maxCount then
         && next.topic == route.retryTopic && RetryCountOf(after) == count + 1
         && RETRY_AT in after && RetryDueAt(after) == now + Millis(Delay(policy, count + 1))
       else
         next.topic == route.dlqTopic && RetryCountOf(after) == count && RETRY_AT !in after
  }

  /** What a handling that lets go of `d` has put on other topics: nothing, or the one replacement. */
  ghost predicate Accounts(route: Route, policy: Policy, d: Delivery, met: Encounter, added: seq<Delivery>) {
    if NamesAnotherRole(route, d) || (met.reply.Reply? && met.reply.ok) then added == []
    else met.reply.Reply? && |added| == 1 && Replaces(route, policy, d, met.reply.reason, met.now, added[0])
  }

  /** What one that raised may have put there: nothing, or the replacement whose send raised all the same. */
  ghost predicate Strays(route: Route, policy: Policy, d: Delivery, met: Encounter, added: seq<Delivery>) {
    || added == []
    || (met.reply.Reply? && met.send.DeliveredButRaised?
        && |added| == 1 && Replaces(route, policy, d, met.reply.reason, met.now, added[0]))
  }

  /** A handling raises exactly when the role raises or the send it needs does; a quiet one accounts for its record. */
  lemma {:induction false} HandlingMeans(route: Route, policy: Policy, d: Delivery, met: Encounter)
    ensures var effect := Handle(route, policy, d, met);
            && (effect.raised <==>
                  !NamesAnotherRole(route, d) && (met.reply.RoleRaises? || (!met.reply.ok && !met.send.Delivered?)))
            && (if effect.raised then Strays(route, policy, d, met, effect.sent)
                else Accounts(route, policy, d, met, effect.sent))
  {
    hide Decoded, Encoded, RetryItems, DlqItems, Delay, Millis, Strip, RetryCountOf, RetryDueAt;
    var headers := Decoded(d.headers);
    if !NamesAnotherRole(route, d) && met.reply.Reply? && !met.reply.ok {
      var count := RetryCountOf(headers);
      var origin := Lookup(headers, ORIGINAL_TOPIC, d.topic);
      var reason := ErrorReason(met.reply.reason);
      RetryHeadersDecode(count + 1, origin, reason, met.now + Millis(Delay(policy, count + 1)));
      DlqHeadersDecode(count, origin, reason);
    }
  }

  class Publisher {
    var log: seq<Delivery>

    constructor ()
      ensures log == []
    {
      log := [];
    }

    method Publish(topic: Topic, message: Message, items: seq<(string, string)>, fault: SendFault)
      returns (raised: bool)
      modifies this
      ensures raised == SendEffect(Delivery(topic, Encoded(items), message), fault).raised
      ensures log == old(log) + SendEffect(Delivery(topic, Encoded(items), message), fault).sent
    {
      if !fault.NotDelivered? {
        log := log + [Delivery(topic, Encoded(items), message)];
      }
      raised := !fault.Delivered?;
    }
  }

  method HandleMessage(route: Route, policy: Policy, publisher: Publisher, d: Delivery, met: Encounter)
    returns (raised: bool)
    modifies publisher
    ensures raised == Handle(route, policy, d, met).raised
    ensures publisher.log == old(publisher.log) + Handle(route, policy, d, met).sent
    ensures raised <==>
              !NamesAnotherRole(route, d) && (met.reply.RoleRaises? || (!met.reply.ok && !met.send.Delivered?))
    ensures old(publisher.log) <= publisher.log
    ensures var added := publisher.log[|old(publisher.log)|..];
            if raised then Strays(route, policy, d, met, added) else Accounts(route, policy, d, met, added)
  {
    HandlingMeans(route, policy, d, met);
    hide Accounts, Strays;
    var headers := DecodeHeaders(d.headers);
    if d.topic == route.retryTopic {
      var origin := Lookup(headers, ORIGINAL_TOPIC, route.consumeTopic);
      if origin != route.consumeTopic {
        return false;
      }
    }
    if met.reply.RoleRaises? {
      return true;
    }
    if met.reply.ok {
      return false;
    }
    var count := RetryCountOf(headers);
    var origin := Lookup(headers, ORIGINAL_TOPIC, d.topic);
    var reason := ErrorReason(met.reply.reason);
    if count < policy.maxCount {
      var next := count + 1;
      var delay := Delay(policy, next);
      var items := RetryItems(next, origin, reason, met.now + Millis(delay));
      raised := publisher.Publish(route.retryTopic, d.message, items, met.send);
      return;
    }
    raised := publisher.Publish(route.dlqTopic, d.message, DlqItems(count, origin, reason), met.send);
  }
}

/** A failing message, followed from topic to topic until it is acknowledged or dead-lettered. */
module RetryLineage {
  import opened Prelude
  import opened Domain
  import opened Decimal
  import opened Headers
  import opened Backoff
  import opened MessageHandler

  ghost predicate DistinctTopics(route: Route) {
    route.consumeTopic != route.retryTopic && route.consumeTopic != route.dlqTopic && route.retryTopic != route.dlqTopic
  }

  /** The retry limit actually in force. */
  function Limit(policy: Policy): nat {
    if policy.maxCount > 0 then policy.maxCount else 0
  }

  /** The `k`-th message of a chain: a request first, then retries that carry their number and origin. */
  ghost predicate OnRoute(route: Route, d: Delivery, k: nat) {
    if k == 0 then d.topic == route.consumeTopic && d.headers == None
    else
      && d.topic == route.retryTopic
      && RetryCountOf(Decoded(d.headers)) == k
      && ORIGINAL_TOPIC in Decoded(d.headers)
      && Decoded(d.headers)[ORIGINAL_TOPIC] == route.consumeTopic
  }

  datatype Attempted = Attempted(ok: bool, reason: Option<string>, now: int)

  datatype Fate =
    | Waiting(delivery: Delivery)
    | Dropped
    | Finished(attempts: nat)
    | Buried(attempts: nat, delivery: Delivery)

  /** Follows a message through successive handlings that reply; `done` have been made. */
  function Follow(route: Route, policy: Policy, d: Delivery, replies: seq<Attempted>, done: nat): Fate
    decreases |replies|
  {
    if replies == [] then Waiting(d)
    else
      match Disposition(route, policy, d, replies[0].ok, replies[0].reason, replies[0].now)
      case Skipped => Dropped
      case Acknowledged => Finished(done + 1)
      case Republished(next) => Follow(route, policy, next, replies[1..], done + 1)
      case DeadLettered(next) => Buried(done + 1, next)
  }

  lemma {:induction false} CountAndOrigin(route: Route, d: Delivery, k: nat)
    requires DistinctTopics(route) && OnRoute(route, d, k)
    ensures var headers := Decoded(d.headers);
            && !Foreign(route, d.topic, headers)
            && RetryCountOf(headers) == k
            && Lookup(headers, ORIGINAL_TOPIC, d.topic) == route.consumeTopic
  {
    if k == 0 {
      IntRoundTrip(0);
      assert NatToString(0) == "0";
    }
  }

  /** One failure moves a message one place along the chain, or ends the chain at the limit. */
  lemma {:induction false} FailureAdvances(route: Route, policy: Policy, d: Delivery, k: nat, reason: Option<string>,
      now: int)
    requires DistinctTopics(route) && OnRoute(route, d, k) && k <= Limit(policy)
    ensures match Disposition(route, policy, d, false, reason, now)
            case Republished(next) =>
              && k < Limit(policy) && OnRoute(route, next, k + 1) && next.message == d.message
              && RetryDueAt(Decoded(next.headers)) == now + Millis(Delay(policy, k + 1))
            case DeadLettered(next) =>
              && k == Limit(policy) && next.topic == route.dlqTopic && next.message == d.message
              && RetryCountOf(Decoded(next.headers)) == k
              && Lookup(Decoded(next.headers), ORIGINAL_TOPIC, "") == route.consumeTopic
            case _ => false
  {
    hide Delay, Millis, RetryItems, DlqItems, Encoded, IntToString, Strip;
    CountAndOrigin(route, d, k);
    RetryHeadersDecode(k + 1, route.consumeTopic, ErrorReason(reason), now + Millis(Delay(policy, k + 1)));
    DlqHeadersDecode(k, route.consumeTopic, ErrorReason(reason));
  }

  lemma {:induction false} NeverForeign(route: Route, policy: Policy, d: Delivery, k: nat, a: Attempted)
    requires DistinctTopics(route) && OnRoute(route, d, k) && a.ok
    ensures Disposition(route, policy, d, true, a.reason, a.now) == Acknowledged
  {
    CountAndOrigin(route, d, k);
  }

  /** The first success among the first `n` replies, or `n`. */
  function FirstSuccess(replies: seq<Attempted>, n: nat): nat
    requires n <= |replies|
  {
    if n == 0 then 0
    else if replies[0].ok then 0
    else 1 + FirstSuccess(replies[1..], n - 1)
  }

  /** The end a chain must come to when `k` handlings have failed and these replies follow. */
  ghost predicate EndsAt(route: Route, policy: Policy, message: Message, k: nat, replies: seq<Attempted>, fate: Fate)
    requires k <= Limit(policy) && |replies| >= Limit(policy) - k + 1
  {
    var left := Limit(policy) - k + 1;
    if FirstSuccess(replies, left) < left then fate == Finished(k + FirstSuccess(replies, left) + 1)
    else fate.Buried? && fate.attempts == Limit(policy) + 1 && IsBuried(route, policy, message, fate.delivery)
  }

  /** A dead letter that kept its payload and origin and exhausted the limit. */
  ghost predicate IsBuried(route: Route, policy: Policy, message: Message, d: Delivery) {
    && d.topic == route.dlqTopic && d.message == message
    && RetryCountOf(Decoded(d.headers)) == Limit(policy)
    && Lookup(Decoded(d.headers), ORIGINAL_TOPIC, "") == route.consumeTopic
  }

  lemma {:induction false} FollowSuccess(route: Route, policy: Policy, d: Delivery, k: nat, replies: seq<Attempted>)
    requires DistinctTopics(route) && OnRoute(route, d, k)
    requires replies != [] && replies[0].ok
    ensures Follow(route, policy, d, replies, k) == Finished(k + 1)
  {
    NeverForeign(route, policy, d, k, replies[0]);
  }

  lemma {:induction false} FollowFailure(route: Route, policy: Policy, d: Delivery, k: nat, replies: seq<Attempted>)
    returns (next: Delivery)
    requires DistinctTopics(route) && OnRoute(route, d, k) && k <= Limit(policy)
    requires replies != [] && !replies[0].ok
    ensures next.message == d.message
    ensures if k < Limit(policy) then
              && OnRoute(route, next, k + 1)
              && Follow(route, policy, d, replies, k) == Follow(route, policy, next, replies[1..], k + 1)
            else
              && IsBuried(route, policy, d.message, next)
              && Follow(route, policy, d, replies, k) == Buried(k + 1, next)
  {
    FailureAdvances(route, policy, d, k, replies[0].reason, replies[0].now);
    next := Disposition(route, policy, d, false, replies[0].reason, replies[0].now).delivery;
  }

  lemma {:induction false} FollowFrom(route: Route, policy: Policy, d: Delivery, k: nat, replies: seq<Attempted>)
    requires DistinctTopics(route) && OnRoute(route, d, k) && k <= Limit(policy)
    requires |replies| >= Limit(policy) - k + 1
    ensures EndsAt(route, policy, d.message, k, replies, Follow(route, policy, d, replies, k))
    decreases Limit(policy) - k
  {
    hide OnRoute, IsBuried, Disposition;
    if replies[0].ok {
      FollowSuccess(route, policy, d, k, replies);
    } else {
      var next := FollowFailure(route, policy, d, k, replies);
      if k < Limit(policy) {
        FollowFrom(route, policy, next, k + 1, replies[1..]);
      }
    }
  }

  /** A message that starts on the consume topic is never dropped and never lost on the way: it ends at the
      first success among its first limit + 1 handlings, and otherwise in the dead-letter topic after exactly
      that many, with its payload, its origin and the limit as its count. */
  lemma {:induction false} LineageEnds(route: Route, policy: Policy, message: Message, replies: seq<Attempted>)
    requires DistinctTopics(route)
    requires |replies| >= Limit(policy) + 1
    ensures EndsAt(route, policy, message, 0, replies,
                   Follow(route, policy, Delivery(route.consumeTopic, None, message), replies, 0))
  {
    FollowFrom(route, policy, Delivery(route.consumeTopic, None, message), 0, replies);
  }

  // ---------------------------------------------------------------- the schedule of a chain

  /** The waits written into the retry records of a chain: each record's due time less the clock reading that
      set it, added up. */
  function ScheduledWait(route: Route, policy: Policy, d: Delivery, replies: seq<Attempted>): int
    decreases |replies|
  {
    if replies == [] then 0
    else
      match Disposition(route, policy, d, replies[0].ok, replies[0].reason, replies[0].now)
      case Republished(next) =>
        RetryDueAt(Decoded(next.headers)) - replies[0].now + ScheduledWait(route, policy, next, replies[1..])
      case _ => 0
  }

  /** After `k` failures, `n` more failures schedule the delays of retries k + 1 to k + n. */
  lemma {:induction false} WaitsFrom(route: Route, policy: Policy, d: Delivery, k: nat, replies: seq<Attempted>)
    requires DistinctTopics(route) && OnRoute(route, d, k) && k + |replies| <= Limit(policy)
    requires forall i :: 0 <= i < |replies| ==> !replies[i].ok
    ensures ScheduledWait(route, policy, d, replies)
         == TotalMillis(policy, k + |replies|) - TotalMillis(policy, k)
    decreases |replies|
  {
    hide OnRoute, Disposition, Delay, Millis, Decoded;
    if replies != [] {
      FailureAdvances(route, policy, d, k, replies[0].reason, replies[0].now);
      var next := Disposition(route, policy, d, false, replies[0].reason, replies[0].now).delivery;
      WaitsFrom(route, policy, next, k + 1, replies[1..]);
      OneMoreRetry(policy, k);
    }
  }

  lemma {:induction false} OneMoreRetry(policy: Policy, k: nat)
    ensures TotalMillis(policy, k + 1) == TotalMillis(policy, k) + Millis(Delay(policy, k + 1))
  {
  }

  lemma {:induction false} NoMillis(policy: Policy)
    ensures TotalMillis(policy, 0) == 0
  {
  }

  lemma {:induction false} StartsOnRoute(route: Route, message: Message)
    ensures OnRoute(route, Delivery(route.consumeTopic, None, message), 0)
  {
  }

  /** Of a chain that starts on the consume topic, the waits scheduled by any number of failures up to the limit
      are exactly the backoff delays in milliseconds, and stay within both bounds. */
  lemma {:induction false} LineageWaits(route: Route, policy: Policy, message: Message, replies: seq<Attempted>)
    requires DistinctTopics(route) && |replies| <= Limit(policy)
    requires forall i :: 0 <= i < |replies| ==> !replies[i].ok
    requires Growing(policy) && policy.maxSeconds >= 0.0
    ensures var wait := ScheduledWait(route, policy, Delivery(route.consumeTopic, None, message), replies);
            wait == TotalMillis(policy, |replies|) && WithinBounds(policy, |replies|, wait)
  {
    hide ScheduledWait, WithinBounds, TotalMillis;
    StartsOnRoute(route, message);
    NoMillis(policy);
    WaitsFrom(route, policy, Delivery(route.consumeTopic, None, message), 0, replies);
    TotalMillisIsBounded(policy, |replies|);
  }
}

/** Which topics each worker role reads and republishes to. */
module Roles {
  import opened Prelude
  import opened Domain
  import opened Headers
  import opened Backoff
  import opened MessageHandler
  import opened RetryLineage

  /** The names the settings accept. */
  datatype Role = Unified | Inference | Downstream

  datatype TopicSettings = TopicSettings(
    request: Topic,
    downstream: Topic,
    retryRequest: Topic,
    retryDownstream: Topic,
    dlq: Topic)

  function WorkerTopic(settings: TopicSettings, role: Role): Topic {
    if role.Unified? then settings.request
    else if role.Inference? then settings.request
    else settings.downstream
  }

  function WorkerRetryTopic(settings: TopicSettings, role: Role): Topic {
    if role.Downstream? then settings.retryDownstream else settings.retryRequest
  }

  function RouteOf(settings: TopicSettings, role: Role): Route {
    Route(WorkerTopic(settings, role), WorkerRetryTopic(settings, role), settings.dlq)
  }

  /** A retry record that one worker publishes for a message of its own is let through unhandled by another
      worker that reads it exactly when the two consume different topics; and when the two retry topics are
      distinct, no reader of the record lets it through unhandled. */
  lemma {:induction false} RetriesAreSkippedIff(settings: TopicSettings, policy: Policy, writer: Role, reader: Role,
      d: Delivery, k: nat, reason: Option<string>, now: int)
    requires var route := RouteOf(settings, writer);
             && DistinctTopics(route) && OnRoute(route, d, k) && k < Limit(policy)
    ensures var handled := Disposition(RouteOf(settings, writer), policy, d, false, reason, now);
            && handled.Republished?
            && var next := handled.delivery;
            (next.topic == WorkerRetryTopic(settings, reader) ==>
               && Foreign(RouteOf(settings, reader), next.topic, Decoded(next.headers))
                  == (WorkerTopic(settings, reader) != WorkerTopic(settings, writer))
               && (settings.retryRequest != settings.retryDownstream ==>
                     !Foreign(RouteOf(settings, reader), next.topic, Decoded(next.headers))))
  {
    hide Disposition, Decoded;
    FailureAdvances(RouteOf(settings, writer), policy, d, k, reason, now);
  }
}
