/**
  What the two delivery callbacks of RabbitMQService decide for one delivery,
  lifted out as functions, and what repeating them does to the broker.

  The retry consumer (CreateQueueWithRetryAsync) acks a delivery its handler
  accepted; otherwise it reads `x-retries` (0 when absent), adds one, and either
  rejects the delivery without requeue (so the dead-letter arguments move it to
  `<queue>_dead`) or republishes the same body with the new count and acks the
  original. The plain consumer (ConsumeAsync) acks or nacks with requeue, and
  with automatic acknowledgement does neither.
*/
module RetryPolicy {
  import opened Wrappers
  import opened Amqp

  const RetryHeader: string := "x-retries"

  /** How the try block of a callback ends before its ack: the body did not
      decode, it decoded to null (the handler is skipped), or the handler ran. */
  datatype Attempt =
    | DecodeFailed(reason: string)
    | NullPayload
    | Handled(outcome: Outcome<string>)

  predicate Succeeded(a: Attempt)
  {
    a.NullPayload? || (a.Handled? && a.outcome.Pass?)
  }

  /** The four ways a delivery is settled, and the case where it is not. */
  datatype Settlement =
    | AckDelivery
    | RejectToDeadLetter(attempts: int32)
    | RepublishThenAck(retries: int32)
    | NackRequeue
    | Unsettled

  datatype RetryConsumer = RetryConsumer(queue: string, maxRetries: int32, durable: bool)

  datatype PlainConsumer = PlainConsumer(queue: string, autoAck: bool)

  // ---------------------------------------------------------------------------
  // The retry consumer's decision
  // ---------------------------------------------------------------------------

  /** Convert.ToInt32 of a header value: integers in range convert, a boolean
      is 1 or 0, the void value is 0, anything else (out of range, byte
      strings, ...) throws. */
  function ToInt32(v: HeaderValue): (r: Option<int32>)
    ensures v.IntValue? ==> (r.Some? <==> MinInt32 <= v.n <= MaxInt32)
    ensures r.Some? && v.IntValue? ==> r.value == v.n
    ensures v.BoolValue? || v.NullValue? ==> r.Some? && 0 <= r.value <= 1
    ensures v.BoolValue? ==> (r == Some(1) <==> v.b)
    ensures v.NullValue? ==> r == Some(0)
    ensures v.OtherValue? ==> r.None?
  {
    match v
    case IntValue(n) => if MinInt32 <= n <= MaxInt32 then Some(n) else None
    case BoolValue(b) => Some(if b then 1 else 0)
    case NullValue => Some(0)
    case OtherValue(_) => None
  }

  /** The retry count before the increment; None when reading it throws. */
  function StoredRetries(headers: Option<Headers>): (r: Option<int32>)
    ensures headers.None? || RetryHeader !in headers.value ==> r == Some(0)
    ensures headers.Some? && RetryHeader in headers.value && headers.value[RetryHeader].IntValue? ==>
      (r.Some? <==> MinInt32 <= headers.value[RetryHeader].n <= MaxInt32)
    ensures headers.Some? && RetryHeader in headers.value && headers.value[RetryHeader].BoolValue? ==>
      r.Some? && (r.value == 1 <==> headers.value[RetryHeader].b) && 0 <= r.value <= 1
    ensures r.None? ==> headers.Some? && RetryHeader in headers.value
  {
    if headers.None? || RetryHeader !in headers.value then Some(0)
    else ToInt32(headers.value[RetryHeader])
  }

  /** `retryCount++` in C#'s unchecked 32-bit arithmetic: the integer one
      above `n`, reduced modulo 2^32 into the int32 range. */
  function Increment(n: int32): (r: int32)
    ensures r == (n + 1 - MinInt32) % 0x1_0000_0000 + MinInt32
    ensures r < n <==> n == MaxInt32
  {
    if n == MaxInt32 then MinInt32 else n + 1
  }

  /** The retry consumer's settlement: an ack exactly on success; an unreadable
      count leaves the delivery unsettled; otherwise the new count decides
      between the dead-letter queue (at or above the limit) and a republish. */
  function RetrySettlement(a: Attempt, headers: Option<Headers>, maxRetries: int32): (r: Settlement)
    ensures r == AckDelivery <==> Succeeded(a)
    ensures r == Unsettled <==> !Succeeded(a) && StoredRetries(headers).None?
    ensures r.RejectToDeadLetter? ==>
      StoredRetries(headers).Some? && r.attempts == Increment(StoredRetries(headers).value) && r.attempts >= maxRetries
    ensures r.RepublishThenAck? ==>
      StoredRetries(headers).Some? && r.retries == Increment(StoredRetries(headers).value) && r.retries < maxRetries
    ensures !r.NackRequeue?
  {
    if Succeeded(a) then AckDelivery
    else
      match StoredRetries(headers)
      case None => Unsettled
      case Some(stored) =>
        var count := Increment(stored);
        if count >= maxRetries then RejectToDeadLetter(count) else RepublishThenAck(count)
  }

  function RepublishedHeaders(original: Option<Headers>, retries: int32): Headers
  {
    (if original.Some? then original.value else map[])[RetryHeader := IntValue(retries)]
  }

  /** The copy a failed delivery is republished as: same body, persistent,
      freshly stamped, and the original headers with `x-retries` replaced. */
  function Republished(m: Message, retries: int32, stamp: Stamp): (r: Message)
    ensures r.body == m.body && r.props.persistent
    ensures r.props.messageId == Some(stamp.messageId) && r.props.timestamp == Some(stamp.unixSeconds)
    ensures r.props.headers.Some? && RetryHeader in r.props.headers.value && r.props.headers.value[RetryHeader] == IntValue(retries)
  {
    Message(m.body, Properties(true, Some(stamp.messageId), Some(stamp.unixSeconds), Some(RepublishedHeaders(m.props.headers, retries))))
  }

  /** The broker calls the retry callback makes for a settlement. */
  function RetryCalls(c: RetryConsumer, d: Delivery, s: Settlement, stamp: Stamp): (calls: seq<BrokerCall>)
    ensures forall i :: 0 <= i < |calls| ==> MessageCall(calls[i])
    ensures |calls| <= 2 && (calls == [] <==> s.NackRequeue? || s.Unsettled?)
    ensures s.AckDelivery? || s.RepublishThenAck? ==> calls[|calls| - 1] == AckCall(d.tag)
    ensures forall i :: 0 <= i < |calls| && calls[i].PublishCall? ==>
      calls[i].exchange == DefaultExchange && calls[i].routingKey == c.queue && calls[i].message.body == d.message.body
  {
    match s
    case AckDelivery => [AckCall(d.tag)]
    case RejectToDeadLetter(_) => [RejectCall(d.tag, false)]
    case RepublishThenAck(n) => [PublishCall(DefaultExchange, c.queue, Republished(d.message, n, stamp)), AckCall(d.tag)]
    case NackRequeue => []
    case Unsettled => []
  }

  /** One failed or successful delivery, with the stamp a republish would carry. */
  datatype Round = Round(attempt: Attempt, stamp: Stamp)

  /** The broker delivers the head of the consumer's queue and the callback settles it. */
  function RetryStep(s: BrokerState, c: RetryConsumer, r: Round): BrokerState
  {
    if !HasMessage(s, c.queue) then s
    else
      var (s1, d) := Deliver(s, c.queue, false);
      ApplyAll(s1, RetryCalls(c, d, RetrySettlement(r.attempt, d.message.props.headers, c.maxRetries), r.stamp))
  }

  /** The rounds in delivery order; the last one happens last. */
  function RunRetry(s: BrokerState, c: RetryConsumer, rounds: seq<Round>): BrokerState
    decreases |rounds|
  {
    if rounds == [] then s else RetryStep(RunRetry(s, c, rounds[..|rounds| - 1]), c, rounds[|rounds| - 1])
  }

  /** How many times a message that always fails is handled. */
  function MaxAttempts(maxRetries: int32): nat
  {
    if maxRetries < 1 then 1 else maxRetries
  }

  /** The working queue, its dead-letter arguments and its dead-letter queue exist. */
  predicate DeadLetterLayout(s: BrokerState, queue: string)
  {
    && queue in s.queues
    && s.queues[queue].arguments == DeadLetterArguments(queue)
    && DeadLetterQueueName(queue) in s.queues
    && TagsIssued(s)
  }

  function WithMessages(s: BrokerState, queue: string, ms: seq<Message>): BrokerState
    requires queue in s.queues
  {
    s.(queues := s.queues[queue := s.queues[queue].(messages := ms)])
  }

  /** The copy of `m` waiting in the working queue after `k` failed rounds. */
  function Pending(m: Message, rounds: seq<Round>, k: nat): Message
    requires k <= |rounds| && k <= MaxInt32
  {
    if k == 0 then m else Republished(Pending(m, rounds, k - 1), k, rounds[k - 1].stamp)
  }

  // ---------------------------------------------------------------------------
  // The plain consumer's decision
  // ---------------------------------------------------------------------------

  /** The plain consumer's settlement: none under automatic acknowledgement,
      otherwise an ack on success and a requeue on failure. */
  function PlainSettlement(a: Attempt, autoAck: bool): (r: Settlement)
    ensures r == Unsettled <==> autoAck
    ensures !autoAck ==> (r == AckDelivery <==> Succeeded(a)) && (r == NackRequeue <==> !Succeeded(a))
  {
    if autoAck then Unsettled else if Succeeded(a) then AckDelivery else NackRequeue
  }

  function PlainCalls(d: Delivery, s: Settlement): (calls: seq<BrokerCall>)
    ensures forall i :: 0 <= i < |calls| ==> MessageCall(calls[i])
    ensures |calls| <= 1 && (calls == [] <==> !s.AckDelivery? && !s.NackRequeue?)
    ensures forall i :: 0 <= i < |calls| ==> calls[i] == AckCall(d.tag) || calls[i] == NackCall(d.tag, true)
  {
    match s
    case AckDelivery => [AckCall(d.tag)]
    case NackRequeue => [NackCall(d.tag, true)]
    case RejectToDeadLetter(_) => []
    case RepublishThenAck(_) => []
    case Unsettled => []
  }

  function PlainStep(s: BrokerState, c: PlainConsumer, a: Attempt): BrokerState
  {
    if !HasMessage(s, c.queue) then s
    else
      var (s1, d) := Deliver(s, c.queue, c.autoAck);
      ApplyAll(s1, PlainCalls(d, PlainSettlement(a, c.autoAck)))
  }

  function RunPlain(s: BrokerState, c: PlainConsumer, attempts: seq<Attempt>): BrokerState
    decreases |attempts|
  {
    if attempts == [] then s else PlainStep(RunPlain(s, c, attempts[..|attempts| - 1]), c, attempts[|attempts| - 1])
  }

  // ---------------------------------------------------------------------------
  // One delivery
  // ---------------------------------------------------------------------------

  /** The retry count is 0 without headers or without `x-retries`, and each
      failed delivery settles with exactly one more. */
  lemma RetryCountAdvancesByOne(a: Attempt, headers: Option<Headers>, maxRetries: int32)
    requires !Succeeded(a)
    ensures headers.None? || RetryHeader !in headers.value ==> StoredRetries(headers) == Some(0)
    ensures match StoredRetries(headers)
      case None => RetrySettlement(a, headers, maxRetries) == Unsettled
      case Some(n) => n < MaxInt32 ==>
        RetrySettlement(a, headers, maxRetries) == (if n + 1 >= maxRetries then RejectToDeadLetter(n + 1) else RepublishThenAck(n + 1))
  {
  }

  /** A successful delivery (a null payload included) is acked once and nothing is republished. */
  lemma SuccessAcksOnce(c: RetryConsumer, d: Delivery, a: Attempt, headers: Option<Headers>, stamp: Stamp)
    requires Succeeded(a)
    ensures RetryCalls(c, d, RetrySettlement(a, headers, c.maxRetries), stamp) == [AckCall(d.tag)]
  {
  }

  /** A failed delivery is either rejected without requeue and nothing is published,
      or its copy is published once to the same queue through the default exchange
      and then the original is acked. */
  lemma FailureRejectsOrRepublishes(c: RetryConsumer, d: Delivery, a: Attempt, stamp: Stamp, n: int32)
    requires !Succeeded(a) && StoredRetries(d.message.props.headers) == Some(n) && n < MaxInt32
    ensures var calls := RetryCalls(c, d, RetrySettlement(a, d.message.props.headers, c.maxRetries), stamp);
      if n + 1 >= c.maxRetries then calls == [RejectCall(d.tag, false)]
      else calls == [PublishCall(DefaultExchange, c.queue, Republished(d.message, n + 1, stamp)), AckCall(d.tag)]
  {
  }

  /** The republished copy keeps the body and every other header, carries the new
      count, and is persistent whatever durability the consumer was given. */
  lemma RepublishedKeepsContent(m: Message, n: int32, stamp: Stamp)
    ensures var r := Republished(m, n, stamp);
      && r.body == m.body && r.props.persistent && r.props.headers.Some?
      && r.props.headers.value[RetryHeader] == IntValue(n)
      && (forall k :: k != RetryHeader ==>
            (k in r.props.headers.value <==> (m.props.headers.Some? && k in m.props.headers.value)))
      && (forall k :: k != RetryHeader && m.props.headers.Some? && k in m.props.headers.value ==>
            r.props.headers.value[k] == m.props.headers.value[k])
      && StoredRetries(r.props.headers) == Some(n)
  {
  }

  /** After `k` failed rounds the waiting copy has the original body and headers,
      with `x-retries` = k. */
  lemma {:induction false} PendingCarriesRetries(m: Message, rounds: seq<Round>, k: nat)
    requires 1 <= k <= |rounds| && k <= MaxInt32
    ensures Pending(m, rounds, k).body == m.body
    ensures Pending(m, rounds, k).props.persistent
    ensures Pending(m, rounds, k).props.headers == Some(RepublishedHeaders(m.props.headers, k))
    ensures StoredRetries(Pending(m, rounds, k).props.headers) == Some(k)
  {
    if k > 1 {
      PendingCarriesRetries(m, rounds, k - 1);
      var h := if m.props.headers.Some? then m.props.headers.value else map[];
      assert RepublishedHeaders(Some(h[RetryHeader := IntValue(k - 1)]), k) == h[RetryHeader := IntValue(k)];
    }
  }

  lemma PendingStoredRetries(m: Message, rounds: seq<Round>, k: nat)
    requires k <= |rounds| && k <= MaxInt32 && StoredRetries(m.props.headers) == Some(0)
    ensures StoredRetries(Pending(m, rounds, k).props.headers) == Some(k)
  {
    if k > 0 {
      PendingCarriesRetries(m, rounds, k);
    }
  }

  lemma ApplyOne(s: BrokerState, a: BrokerCall)
    requires MessageCall(a)
    ensures ApplyAll(s, [a]) == Apply(s, a)
  {
    assert [a][1..] == [];
  }

  lemma ApplyTwo(s: BrokerState, a: BrokerCall, b: BrokerCall)
    requires MessageCall(a) && MessageCall(b)
    ensures ApplyAll(s, [a, b]) == Apply(Apply(s, a), b)
  {
    assert [a, b][1..] == [b];
    ApplyOne(Apply(s, a), b);
  }

  /** Delivering the head of a queue under manual acknowledgement. */
  lemma DeliverHead(t: BrokerState, q: string, p: Message, rest: seq<Message>)
    requires q in t.queues && t.queues[q].messages == [p] + rest && TagsIssued(t)
    ensures var (t1, d) := Deliver(t, q, false);
      && d == Delivery(t.nextTag, q, p) && d.tag !in t.unacked
      && t1 == BrokerState(WithMessages(t, q, rest).queues, t.unacked[d.tag := d], t.nextTag + 1)
  {
    assert ([p] + rest)[1..] == rest;
  }

  /** A failed round below the limit takes the head `p` of the working queue and
      appends its republished copy behind the messages `rest` that were queued
      after it, leaving everything else as it was. */
  lemma FailedRoundRepublishes(t: BrokerState, c: RetryConsumer, r: Round, p: Message, rest: seq<Message>, j: int32)
    requires DeadLetterLayout(t, c.queue) && t.queues[c.queue].messages == [p] + rest
    requires !Succeeded(r.attempt) && StoredRetries(p.props.headers) == Some(j) && j < MaxInt32 && j + 1 < c.maxRetries
    ensures RetryStep(t, c, r) == WithMessages(t, c.queue, rest + [Republished(p, j + 1, r.stamp)]).(nextTag := t.nextTag + 1)
  {
    var q := c.queue;
    DeliverHead(t, q, p, rest);
    var (t1, d) := Deliver(t, q, false);
    var copy := Republished(p, j + 1, r.stamp);
    assert RetrySettlement(r.attempt, d.message.props.headers, c.maxRetries) == RepublishThenAck(j + 1);
    ApplyTwo(t1, PublishCall(DefaultExchange, q, copy), AckCall(d.tag));
    var t2 := Route(t1, DefaultExchange, q, copy);
    assert t2.queues == t1.queues[q := t.queues[q].(messages := rest + [copy])];
    assert t2.queues == WithMessages(t, q, rest + [copy]).queues;
    assert t1.unacked - {d.tag} == t.unacked;
  }

  /** The failed round whose count reaches the limit moves the head `p` of the
      working queue to `<queue>_dead`; the messages behind it stay queued. */
  lemma LastRoundDeadLetters(t: BrokerState, c: RetryConsumer, r: Round, p: Message, rest: seq<Message>, j: int32)
    requires DeadLetterLayout(t, c.queue) && t.queues[c.queue].messages == [p] + rest
    requires !Succeeded(r.attempt) && StoredRetries(p.props.headers) == Some(j) && j < MaxInt32 && j + 1 >= c.maxRetries
    ensures var dlq := DeadLetterQueueName(c.queue);
      RetryStep(t, c, r) == WithMessages(WithMessages(t, c.queue, rest), dlq, t.queues[dlq].messages + [p]).(nextTag := t.nextTag + 1)
  {
    var q, dlq := c.queue, DeadLetterQueueName(c.queue);
    DeliverHead(t, q, p, rest);
    var (t1, d) := Deliver(t, q, false);
    assert RetrySettlement(r.attempt, d.message.props.headers, c.maxRetries) == RejectToDeadLetter(j + 1);
    ApplyOne(t1, RejectCall(d.tag, false));
    RejectRoutesToDeadLetterQueue(t1, d);
    var t2 := Settle(t1, d.tag, false);
    assert t1.unacked - {d.tag} == t.unacked;
    assert t2.queues == WithMessages(WithMessages(t, q, rest), dlq, t.queues[dlq].messages + [p]).queues;
  }

  /** A successful round removes the head of the working queue and touches nothing else. */
  lemma SucceededRoundAcks(t: BrokerState, c: RetryConsumer, r: Round, p: Message, rest: seq<Message>)
    requires DeadLetterLayout(t, c.queue) && t.queues[c.queue].messages == [p] + rest && Succeeded(r.attempt)
    ensures RetryStep(t, c, r) == WithMessages(t, c.queue, rest).(nextTag := t.nextTag + 1)
  {
    DeliverHead(t, c.queue, p, rest);
    var (t1, d) := Deliver(t, c.queue, false);
    assert RetrySettlement(r.attempt, d.message.props.headers, c.maxRetries) == AckDelivery;
    ApplyOne(t1, AckCall(d.tag));
    assert t1.unacked - {d.tag} == t.unacked;
  }

  // ---------------------------------------------------------------------------
  // Repeated deliveries of one message
  // ---------------------------------------------------------------------------

  /** Replacing the working queue's messages and spending tags keeps the layout. */
  lemma LayoutKept(s: BrokerState, q: string, ms: seq<Message>, n: nat)
    requires DeadLetterLayout(s, q)
    ensures DeadLetterLayout(WithMessages(s, q, ms).(nextTag := s.nextTag + n), q)
    ensures WithMessages(s, q, ms).queues[q].messages == ms
  {
  }

  lemma RunRetryPrefix(s: BrokerState, c: RetryConsumer, rounds: seq<Round>, k: nat)
    requires 0 < k <= |rounds|
    ensures RunRetry(s, c, rounds[..k]) == RetryStep(RunRetry(s, c, rounds[..k - 1]), c, rounds[k - 1])
  {
    assert rounds[..k][..k - 1] == rounds[..k - 1];
  }

  /** The state after `k` failed rounds: the k-th copy alone in the working queue. */
  function AfterFailures(s: BrokerState, c: RetryConsumer, m: Message, rounds: seq<Round>, k: nat): BrokerState
    requires c.queue in s.queues && k <= |rounds| && k <= MaxInt32
  {
    WithMessages(s, c.queue, [Pending(m, rounds, k)]).(nextTag := s.nextTag + k)
  }

  /** After `k` failed rounds the working queue holds the k-th copy alone, whose
      count reads back as k, and the layout is intact. */
  lemma AfterFailuresReady(s: BrokerState, c: RetryConsumer, m: Message, rounds: seq<Round>, k: nat)
    requires DeadLetterLayout(s, c.queue) && StoredRetries(m.props.headers) == Some(0)
    requires k <= |rounds| && k <= MaxInt32
    ensures var t := AfterFailures(s, c, m, rounds, k);
      && DeadLetterLayout(t, c.queue) && t.queues[c.queue].messages == [Pending(m, rounds, k)] + []
      && StoredRetries(Pending(m, rounds, k).props.headers) == Some(k)
  {
    var p := Pending(m, rounds, k);
    LayoutKept(s, c.queue, [p], k);
    PendingStoredRetries(m, rounds, k);
    assert [p] + [] == [p];
  }

  /** Replacing the working queue's messages after `k - 1` failed rounds and
      spending one more tag. */
  lemma AfterFailuresReplace(s: BrokerState, c: RetryConsumer, m: Message, rounds: seq<Round>, k: nat, ms: seq<Message>)
    requires c.queue in s.queues && 0 < k <= |rounds| && k <= MaxInt32
    ensures var t := AfterFailures(s, c, m, rounds, k - 1);
      WithMessages(t, c.queue, ms).(nextTag := t.nextTag + 1) == WithMessages(s, c.queue, ms).(nextTag := s.nextTag + k)
  {
    var t := AfterFailures(s, c, m, rounds, k - 1);
    assert WithMessages(t, c.queue, ms).queues == WithMessages(s, c.queue, ms).queues;
  }

  lemma FailedRoundAdvances(s: BrokerState, c: RetryConsumer, m: Message, rounds: seq<Round>, k: nat)
    requires DeadLetterLayout(s, c.queue) && StoredRetries(m.props.headers) == Some(0)
    requires 0 < k < MaxAttempts(c.maxRetries) && k <= |rounds| && !Succeeded(rounds[k - 1].attempt)
    ensures RetryStep(AfterFailures(s, c, m, rounds, k - 1), c, rounds[k - 1]) == AfterFailures(s, c, m, rounds, k)
  {
    var p := Pending(m, rounds, k - 1);
    AfterFailuresReady(s, c, m, rounds, k - 1);
    FailedRoundRepublishes(AfterFailures(s, c, m, rounds, k - 1), c, rounds[k - 1], p, [], k - 1);
    var copy := Republished(p, k, rounds[k - 1].stamp);
    assert [] + [copy] == [Pending(m, rounds, k)];
    AfterFailuresReplace(s, c, m, rounds, k, [] + [copy]);
  }

  /** While the count stays below the limit, each failed round leaves exactly the
      next copy in the working queue. */
  lemma {:induction false} FailingPrefix(s: BrokerState, c: RetryConsumer, m: Message, rounds: seq<Round>, k: nat)
    requires DeadLetterLayout(s, c.queue) && s.queues[c.queue].messages == [m] && StoredRetries(m.props.headers) == Some(0)
    requires k < MaxAttempts(c.maxRetries) && k <= |rounds|
    requires forall i :: 0 <= i < k ==> !Succeeded(rounds[i].attempt)
    ensures RunRetry(s, c, rounds[..k]) == AfterFailures(s, c, m, rounds, k)
  {
    if k == 0 {
      assert rounds[..0] == [];
      assert s.queues[c.queue := s.queues[c.queue].(messages := [m])] == s.queues;
    } else {
      FailingPrefix(s, c, m, rounds, k - 1);
      RunRetryPrefix(s, c, rounds, k);
      FailedRoundAdvances(s, c, m, rounds, k);
    }
  }

  /** Once the working queue is empty, further rounds change nothing. */
  lemma {:induction false} IdleAfterDrained(s: BrokerState, c: RetryConsumer, rounds: seq<Round>, j: nat, k: nat)
    requires j <= k <= |rounds| && !HasMessage(RunRetry(s, c, rounds[..j]), c.queue)
    ensures RunRetry(s, c, rounds[..k]) == RunRetry(s, c, rounds[..j])
    decreases k - j
  {
    if k > j {
      IdleAfterDrained(s, c, rounds, j, k - 1);
      RunRetryPrefix(s, c, rounds, k);
    }
  }

  /** The state once the copy `p` has left for `<queue>_dead` after `n` deliveries. */
  function AfterDeadLetter(s: BrokerState, c: RetryConsumer, p: Message, n: nat): (t: BrokerState)
    requires c.queue in s.queues && DeadLetterQueueName(c.queue) in s.queues
    ensures t.queues.Keys == s.queues.Keys && t.unacked == s.unacked && t.nextTag == s.nextTag + n
    ensures t.queues[c.queue].messages == []
    ensures t.queues[DeadLetterQueueName(c.queue)].messages == s.queues[DeadLetterQueueName(c.queue)].messages + [p]
  {
    var dlq := DeadLetterQueueName(c.queue);
    WithMessages(WithMessages(s, c.queue, []), dlq, s.queues[dlq].messages + [p]).(nextTag := s.nextTag + n)
  }

  lemma LastFailureDeadLetters(s: BrokerState, c: RetryConsumer, m: Message, rounds: seq<Round>, n: nat)
    requires DeadLetterLayout(s, c.queue) && StoredRetries(m.props.headers) == Some(0)
    requires n == MaxAttempts(c.maxRetries) && n <= |rounds| && !Succeeded(rounds[n - 1].attempt)
    ensures RetryStep(AfterFailures(s, c, m, rounds, n - 1), c, rounds[n - 1]) == AfterDeadLetter(s, c, Pending(m, rounds, n - 1), n)
  {
    var q, dlq := c.queue, DeadLetterQueueName(c.queue);
    var j: int32 := n - 1;
    var p := Pending(m, rounds, j);
    var t := AfterFailures(s, c, m, rounds, j);
    LayoutKept(s, q, [p], j);
    PendingStoredRetries(m, rounds, j);
    assert j + 1 >= c.maxRetries;
    assert [p] + [] == [p];
    LastRoundDeadLetters(t, c, rounds[j], p, [], j);
    assert t.queues[dlq] == s.queues[dlq];
    var emptied := s.queues[q := s.queues[q].(messages := [])];
    assert WithMessages(t, q, []).queues == emptied;
    assert WithMessages(s, q, []).queues == emptied;
  }

  lemma SuccessAfterFailures(s: BrokerState, c: RetryConsumer, m: Message, rounds: seq<Round>, k: nat)
    requires DeadLetterLayout(s, c.queue) && StoredRetries(m.props.headers) == Some(0)
    requires 1 <= k <= MaxAttempts(c.maxRetries) && k <= |rounds| && Succeeded(rounds[k - 1].attempt)
    ensures RetryStep(AfterFailures(s, c, m, rounds, k - 1), c, rounds[k - 1]) == WithMessages(s, c.queue, []).(nextTag := s.nextTag + k)
  {
    var q, p := c.queue, Pending(m, rounds, k - 1);
    var t := AfterFailures(s, c, m, rounds, k - 1);
    LayoutKept(s, q, [p], k - 1);
    assert [p] + [] == [p];
    SucceededRoundAcks(t, c, rounds[k - 1], p, []);
    assert WithMessages(t, q, []).queues == WithMessages(s, q, []).queues;
  }

  /** A message whose handler always fails is delivered exactly max(1, maxRetries)
      times; its last retry copy then sits in `<queue>_dead` with the original
      body and, after the first attempt, the count of the attempts before the
      last. The working queue is empty and no new delivery is left
      unacknowledged. */
  lemma {:induction false} AlwaysFailingIsDeadLettered(s: BrokerState, c: RetryConsumer, m: Message, rounds: seq<Round>)
    requires DeadLetterLayout(s, c.queue) && s.queues[c.queue].messages == [m] && StoredRetries(m.props.headers) == Some(0)
    requires |rounds| >= MaxAttempts(c.maxRetries)
    requires forall i :: 0 <= i < |rounds| ==> !Succeeded(rounds[i].attempt)
    ensures var t := RunRetry(s, c, rounds); var n := MaxAttempts(c.maxRetries); var dlq := DeadLetterQueueName(c.queue);
      && t.nextTag == s.nextTag + n
      && t.queues.Keys == s.queues.Keys
      && t.queues[c.queue].messages == []
      && t.queues[dlq].messages == s.queues[dlq].messages + [Pending(m, rounds, n - 1)]
      && Pending(m, rounds, n - 1).body == m.body
      && (n > 1 ==> StoredRetries(Pending(m, rounds, n - 1).props.headers) == Some(n - 1))
      && t.unacked == s.unacked
  {
    var n := MaxAttempts(c.maxRetries);
    AlwaysFailingRun(s, c, m, rounds);
    if n > 1 {
      PendingCarriesRetries(m, rounds, n - 1);
    }
  }

  lemma AlwaysFailingRun(s: BrokerState, c: RetryConsumer, m: Message, rounds: seq<Round>)
    requires DeadLetterLayout(s, c.queue) && s.queues[c.queue].messages == [m] && StoredRetries(m.props.headers) == Some(0)
    requires |rounds| >= MaxAttempts(c.maxRetries)
    requires forall i :: 0 <= i < |rounds| ==> !Succeeded(rounds[i].attempt)
    ensures var n := MaxAttempts(c.maxRetries);
      RunRetry(s, c, rounds) == AfterDeadLetter(s, c, Pending(m, rounds, n - 1), n)
  {
    var n := MaxAttempts(c.maxRetries);
    var p := Pending(m, rounds, n - 1);
    var mid := RunRetry(s, c, rounds[..n]);
    assert mid == AfterDeadLetter(s, c, p, n) by {
      FailingPrefix(s, c, m, rounds, n - 1);
      RunRetryPrefix(s, c, rounds, n);
      LastFailureDeadLetters(s, c, m, rounds, n);
    }
    IdleAfterDrained(s, c, rounds, n, |rounds|);
    assert rounds[..|rounds|] == rounds;
  }

  /** A message whose handler fails k - 1 times and then succeeds, k not above
      max(1, maxRetries), is delivered exactly k times, acked, and never reaches
      `<queue>_dead`; no new delivery is left unacknowledged. */
  lemma {:induction false} SucceedsOnAttempt(s: BrokerState, c: RetryConsumer, m: Message, rounds: seq<Round>, k: nat)
    requires DeadLetterLayout(s, c.queue) && s.queues[c.queue].messages == [m] && StoredRetries(m.props.headers) == Some(0)
    requires 1 <= k <= MaxAttempts(c.maxRetries) && k <= |rounds|
    requires forall i :: 0 <= i < k - 1 ==> !Succeeded(rounds[i].attempt)
    requires Succeeded(rounds[k - 1].attempt)
    ensures var t := RunRetry(s, c, rounds); var dlq := DeadLetterQueueName(c.queue);
      && t.nextTag == s.nextTag + k
      && t.queues.Keys == s.queues.Keys
      && t.queues[c.queue].messages == []
      && t.queues[dlq] == s.queues[dlq]
      && t.unacked == s.unacked
  {
    SucceedsOnAttemptRun(s, c, m, rounds, k);
    LayoutKept(s, c.queue, [], k);
  }

  lemma SucceedsOnAttemptRun(s: BrokerState, c: RetryConsumer, m: Message, rounds: seq<Round>, k: nat)
    requires DeadLetterLayout(s, c.queue) && s.queues[c.queue].messages == [m] && StoredRetries(m.props.headers) == Some(0)
    requires 1 <= k <= MaxAttempts(c.maxRetries) && k <= |rounds|
    requires forall i :: 0 <= i < k - 1 ==> !Succeeded(rounds[i].attempt)
    requires Succeeded(rounds[k - 1].attempt)
    ensures RunRetry(s, c, rounds) == WithMessages(s, c.queue, []).(nextTag := s.nextTag + k)
  {
    FailingPrefix(s, c, m, rounds, k - 1);
    RunRetryPrefix(s, c, rounds, k);
    SuccessAfterFailures(s, c, m, rounds, k);
    IdleAfterDrained(s, c, rounds, k, |rounds|);
    assert rounds[..|rounds|] == rounds;
  }

  // ---------------------------------------------------------------------------
  // The plain consumer
  // ---------------------------------------------------------------------------

  /** With manual acknowledgement a delivery is settled by exactly one call: an ack
      on success, a nack with requeue on failure; with automatic acknowledgement by none. */
  lemma PlainSettlesOnce(d: Delivery, a: Attempt, autoAck: bool)
    ensures var calls := PlainCalls(d, PlainSettlement(a, autoAck));
      && (autoAck ==> calls == [])
      && (!autoAck && Succeeded(a) ==> calls == [AckCall(d.tag)])
      && (!autoAck && !Succeeded(a) ==> calls == [NackCall(d.tag, true)])
  {
  }

  /** A failed delivery under manual acknowledgement returns to the front of its
      queue: the broker is as before except for the spent delivery tag. */
  lemma FailedDeliveryIsRedelivered(s: BrokerState, c: PlainConsumer, a: Attempt)
    requires !c.autoAck && HasMessage(s, c.queue) && TagsIssued(s) && !Succeeded(a)
    ensures PlainStep(s, c, a) == s.(nextTag := s.nextTag + 1)
  {
    var q := c.queue;
    var (s1, d) := Deliver(s, q, false);
    assert d.tag !in s.unacked;
    assert ApplyAll(s1, [NackCall(d.tag, true)]) == Settle(s1, d.tag, true) by {
      assert [NackCall(d.tag, true)][1..] == [];
    }
    RequeueRestoresFront(s1, d);
    assert s1.unacked - {d.tag} == s.unacked;
    assert [s.queues[q].messages[0]] + s.queues[q].messages[1..] == s.queues[q].messages;
    assert s.queues[q := s.queues[q].(messages := s.queues[q].messages)] == s.queues;
  }

  /** A message that always fails under the plain consumer is redelivered forever:
      after any number of failed deliveries the queues are exactly as they started. */
  lemma {:induction false} FailingForeverKeepsMessage(s: BrokerState, c: PlainConsumer, attempts: seq<Attempt>)
    requires !c.autoAck && HasMessage(s, c.queue) && TagsIssued(s)
    requires forall i :: 0 <= i < |attempts| ==> !Succeeded(attempts[i])
    ensures RunPlain(s, c, attempts) == s.(nextTag := s.nextTag + |attempts|)
    decreases |attempts|
  {
    if attempts != [] {
      var init := attempts[..|attempts| - 1];
      FailingForeverKeepsMessage(s, c, init);
      FailedDeliveryIsRedelivered(s.(nextTag := s.nextTag + |init|), c, attempts[|attempts| - 1]);
    }
  }

  /** A successful delivery under manual acknowledgement, and every delivery under
      automatic acknowledgement, removes the head of the queue and nothing else. */
  lemma SettledDeliveryIsRemoved(s: BrokerState, c: PlainConsumer, a: Attempt)
    requires HasMessage(s, c.queue) && TagsIssued(s) && (c.autoAck || Succeeded(a))
    ensures PlainStep(s, c, a) == WithMessages(s, c.queue, s.queues[c.queue].messages[1..]).(nextTag := s.nextTag + 1)
  {
    var (s1, d) := Deliver(s, c.queue, c.autoAck);
    assert d.tag !in s.unacked;
    if !c.autoAck {
      assert ApplyAll(s1, [AckCall(d.tag)]) == Ack(s1, d.tag) by {
        assert [AckCall(d.tag)][1..] == [];
      }
      assert s1.unacked - {d.tag} == s.unacked;
    }
  }
}
