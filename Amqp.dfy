/**
  An abstract AMQP 0-9-1 broker, reduced to what the message-queue client of
  MailSharp relies on: durable queue declarations with arguments, the default
  exchange (the empty exchange name routes to the queue named by the routing
  key), manual and automatic acknowledgement, and RabbitMQ's dead-lettering
  convention (a queue argument `x-dead-letter-exchange` names the exchange a
  message rejected without requeue is republished to, with routing key
  `x-dead-letter-routing-key`, or its original routing key when that is absent).

  No exchange other than the default one exists in this model, so a message
  published or dead-lettered to any other exchange is dropped.
*/
module Amqp {
  import opened Wrappers

  newtype byte = x: int | 0 <= x < 256

  const MinInt32: int := -0x8000_0000
  const MaxInt32: int := 0x7fff_ffff

  /** C#'s `int`. */
  type int32 = x: int | -0x8000_0000 <= x <= 0x7fff_ffff

  /** A header value as the client library decodes it from the wire. */
  datatype HeaderValue =
    | IntValue(n: int)           // any AMQP integer field (short, long, long-long)
    | BoolValue(b: bool)         // the AMQP boolean field
    | NullValue                  // the AMQP void field
    | OtherValue(raw: seq<byte>) // strings (they arrive as byte arrays), tables, arrays, ...

  type Headers = map<string, HeaderValue>

  /** The basic properties the client sets; the others are never set. */
  datatype Properties = Properties(
    persistent: bool,
    messageId: Option<string>,
    timestamp: Option<int>,
    headers: Option<Headers>)

  /** Properties of a publish that passes none. */
  const BlankProperties: Properties := Properties(false, None, None, None)

  datatype Message = Message(body: seq<byte>, props: Properties)

  /** Queue arguments; every argument this client declares is a string. */
  type Arguments = map<string, string>

  datatype Queue = Queue(durable: bool, arguments: Arguments, messages: seq<Message>)

  /** A message handed to a consumer, with the tag it is settled by. */
  datatype Delivery = Delivery(tag: nat, queue: string, message: Message)

  /** Queues by name, deliveries waiting for ack/nack/reject by tag, the next delivery tag. */
  datatype BrokerState = BrokerState(queues: map<string, Queue>, unacked: map<nat, Delivery>, nextTag: nat)

  /** The channel-level errors this client can provoke (reply codes 406 and 404). */
  datatype AmqpError = PreconditionFailed(queue: string) | NotFound(queue: string)

  /** A method the client sends to the broker. */
  datatype BrokerCall =
    | QueueDeclareCall(queue: string, durable: bool, arguments: Arguments)
    | ConsumeCall(queue: string, autoAck: bool)
    | PublishCall(exchange: string, routingKey: string, message: Message)
    | AckCall(tag: nat)
    | RejectCall(tag: nat, requeue: bool)
    | NackCall(tag: nat, requeue: bool)

  /** The message id and Unix-seconds timestamp a publish stamps on its message. */
  datatype Stamp = Stamp(messageId: string, unixSeconds: int)

  const DefaultExchange: string := ""
  const DeadLetterExchangeKey: string := "x-dead-letter-exchange"
  const DeadLetterRoutingKeyKey: string := "x-dead-letter-routing-key"

  /** The paired dead-letter queue `<queue>_dead`; never the queue itself. */
  function DeadLetterQueueName(queue: string): (dlq: string)
    ensures |dlq| == |queue| + 5 && dlq[..|queue|] == queue && dlq != queue
  {
    queue + "_dead"
  }

  /** Arguments that dead-letter into `<queue>_dead` through the default exchange. */
  function DeadLetterArguments(queue: string): Arguments
  {
    map[DeadLetterExchangeKey := DefaultExchange, DeadLetterRoutingKeyKey := DeadLetterQueueName(queue)]
  }

  // ---------------------------------------------------------------------------
  // Broker semantics
  // ---------------------------------------------------------------------------

  /** queue.declare: creates an empty queue, accepts an equivalent redeclaration
      unchanged, and refuses one with another durability or other arguments. */
  function Declare(s: BrokerState, name: string, durable: bool, args: Arguments): (r: Result<BrokerState, AmqpError>)
    ensures r.Failure? ==> r.error == PreconditionFailed(name) && name in s.queues
    ensures r.Success? ==> r.value.queues.Keys == s.queues.Keys + {name} && r.value.unacked == s.unacked
  {
    if name !in s.queues then
      Success(s.(queues := s.queues[name := Queue(durable, args, [])]))
    else if s.queues[name].durable == durable && s.queues[name].arguments == args then
      Success(s)
    else
      Failure(PreconditionFailed(name))
  }

  /** basic.publish with mandatory = false: routed by the default exchange or dropped. */
  function Route(s: BrokerState, exchange: string, routingKey: string, m: Message): (r: BrokerState)
    ensures r.unacked == s.unacked && r.nextTag == s.nextTag && r.queues.Keys == s.queues.Keys
  {
    if exchange == DefaultExchange && routingKey in s.queues then
      var q := s.queues[routingKey];
      s.(queues := s.queues[routingKey := q.(messages := q.messages + [m])])
    else
      s
  }

  predicate HasMessage(s: BrokerState, queue: string)
  {
    queue in s.queues && |s.queues[queue].messages| > 0
  }

  /** Every unacknowledged delivery was issued an earlier tag, under that tag. */
  predicate TagsIssued(s: BrokerState)
  {
    forall t :: t in s.unacked ==> t < s.nextTag && s.unacked[t].tag == t
  }

  /** The broker pushes the head of `queue` to its consumer; with automatic
      acknowledgement the message is settled on delivery, otherwise it waits. */
  function Deliver(s: BrokerState, queue: string, autoAck: bool): (r: (BrokerState, Delivery))
    requires HasMessage(s, queue)
    ensures TagsIssued(s) ==> TagsIssued(r.0)
  {
    var q := s.queues[queue];
    var d := Delivery(s.nextTag, queue, q.messages[0]);
    var rest := s.queues[queue := q.(messages := q.messages[1..])];
    (BrokerState(rest, if autoAck then s.unacked else s.unacked[d.tag := d], s.nextTag + 1), d)
  }

  /** basic.ack of a delivery. An unknown tag would make RabbitMQ close the
      channel with PRECONDITION_FAILED; the modelled callbacks only ever ack
      the tag of the delivery they were handed, so that case is not modelled. */
  function Ack(s: BrokerState, tag: nat): BrokerState
  {
    s.(unacked := s.unacked - {tag})
  }

  /** A rejected delivery goes back to the front of its queue. */
  function Requeue(s: BrokerState, d: Delivery): BrokerState
  {
    if d.queue in s.queues then
      var q := s.queues[d.queue];
      s.(queues := s.queues[d.queue := q.(messages := [d.message] + q.messages)])
    else
      s
  }

  /** A delivery rejected without requeue is republished by its queue's
      dead-letter arguments, or discarded when the queue has none. */
  function DeadLetter(s: BrokerState, d: Delivery): BrokerState
  {
    if d.queue in s.queues && DeadLetterExchangeKey in s.queues[d.queue].arguments then
      var args := s.queues[d.queue].arguments;
      var key := if DeadLetterRoutingKeyKey in args then args[DeadLetterRoutingKeyKey] else d.queue;
      Route(s, args[DeadLetterExchangeKey], key, d.message)
    else
      s
  }

  /** basic.reject and basic.nack of a single delivery. */
  function Settle(s: BrokerState, tag: nat, requeue: bool): BrokerState
  {
    if tag !in s.unacked then s
    else
      var d := s.unacked[tag];
      var rest := s.(unacked := s.unacked - {tag});
      if requeue then Requeue(rest, d) else DeadLetter(rest, d)
  }

  /** The calls that act on messages (the ones a delivery callback makes). */
  predicate MessageCall(c: BrokerCall)
  {
    c.PublishCall? || c.AckCall? || c.RejectCall? || c.NackCall?
  }

  function Apply(s: BrokerState, c: BrokerCall): BrokerState
    requires MessageCall(c)
  {
    match c
    case PublishCall(exchange, key, m) => Route(s, exchange, key, m)
    case AckCall(tag) => Ack(s, tag)
    case RejectCall(tag, requeue) => Settle(s, tag, requeue)
    case NackCall(tag, requeue) => Settle(s, tag, requeue)
  }

  function ApplyAll(s: BrokerState, calls: seq<BrokerCall>): BrokerState
    requires forall i :: 0 <= i < |calls| ==> MessageCall(calls[i])
    decreases |calls|
  {
    if calls == [] then s else ApplyAll(Apply(s, calls[0]), calls[1..])
  }

  // ---------------------------------------------------------------------------
  // Properties of the broker model
  // ---------------------------------------------------------------------------

  /** A declaration succeeds exactly when the queue is new or declared the same way,
      and afterwards the queue exists as declared, with its messages kept. */
  lemma DeclareSucceedsIff(s: BrokerState, name: string, durable: bool, args: Arguments)
    ensures Declare(s, name, durable, args).Success? <==>
      (name !in s.queues || (s.queues[name].durable == durable && s.queues[name].arguments == args))
    ensures Declare(s, name, durable, args).Failure? ==> Declare(s, name, durable, args).error == PreconditionFailed(name)
    ensures match Declare(s, name, durable, args)
      case Success(t) =>
        && name in t.queues && t.queues[name].durable == durable && t.queues[name].arguments == args
        && t.queues[name].messages == (if name in s.queues then s.queues[name].messages else [])
        && (forall n :: n in s.queues && n != name ==> n in t.queues && t.queues[n] == s.queues[n])
        && t.unacked == s.unacked && t.nextTag == s.nextTag
      case Failure(_) => true
  {
  }

  /** Declaring the same queue a second time with the same arguments changes nothing. */
  lemma DeclareIdempotent(s: BrokerState, name: string, durable: bool, args: Arguments)
    requires Declare(s, name, durable, args).Success?
    ensures Declare(Declare(s, name, durable, args).value, name, durable, args) == Declare(s, name, durable, args)
  {
  }

  /** The default exchange appends the message to the queue named by the routing key
      and to no other queue; any other exchange drops it. */
  lemma RouteAppendsOnlyToTarget(s: BrokerState, exchange: string, key: string, m: Message, n: string)
    requires n in s.queues
    ensures var t := Route(s, exchange, key, m);
      n in t.queues && t.queues[n].durable == s.queues[n].durable && t.queues[n].arguments == s.queues[n].arguments
      && t.queues[n].messages == s.queues[n].messages + (if exchange == DefaultExchange && n == key then [m] else [])
  {
  }

  /** A delivery from a queue with the dead-letter arguments of the working queue,
      rejected without requeue, is appended to `<queue>_dead` unchanged. */
  lemma RejectRoutesToDeadLetterQueue(s: BrokerState, d: Delivery)
    requires d.tag in s.unacked && s.unacked[d.tag] == d
    requires d.queue in s.queues && s.queues[d.queue].arguments == DeadLetterArguments(d.queue)
    requires DeadLetterQueueName(d.queue) in s.queues
    ensures var t := Settle(s, d.tag, false); var dlq := DeadLetterQueueName(d.queue);
      && t.unacked == s.unacked - {d.tag}
      && t.queues == s.queues[dlq := s.queues[dlq].(messages := s.queues[dlq].messages + [d.message])]
  {
  }

  /** A delivery rejected with requeue is back at the front of its queue. */
  lemma RequeueRestoresFront(s: BrokerState, d: Delivery)
    requires d.tag in s.unacked && s.unacked[d.tag] == d && d.queue in s.queues
    ensures var t := Settle(s, d.tag, true);
      && t.unacked == s.unacked - {d.tag}
      && t.queues == s.queues[d.queue := s.queues[d.queue].(messages := [d.message] + s.queues[d.queue].messages)]
  {
  }

  // ---------------------------------------------------------------------------
  // The broker as the client sees it
  // ---------------------------------------------------------------------------

  /** The broker behind the client's channels; `log` records every method it receives. */
  class Broker {
    var state: BrokerState
    ghost var log: seq<BrokerCall>

    constructor (initial: BrokerState)
      ensures state == initial && log == []
    {
      state := initial;
      log := [];
    }

    method QueueDeclare(name: string, durable: bool, args: Arguments) returns (r: Outcome<AmqpError>)
      modifies this
      ensures log == old(log) + [QueueDeclareCall(name, durable, args)]
      ensures match Declare(old(state), name, durable, args)
        case Success(t) => r == Pass && state == t
        case Failure(e) => r == Fail(e) && state == old(state)
    {
      log := log + [QueueDeclareCall(name, durable, args)];
      match Declare(state, name, durable, args)
      case Success(t) =>
        state := t;
        r := Pass;
      case Failure(e) =>
        r := Fail(e);
    }

    method BasicConsume(queue: string, autoAck: bool) returns (r: Outcome<AmqpError>)
      modifies this
      ensures log == old(log) + [ConsumeCall(queue, autoAck)] && state == old(state)
      ensures r == if queue in state.queues then Pass else Fail(NotFound(queue))
    {
      log := log + [ConsumeCall(queue, autoAck)];
      r := if queue in state.queues then Pass else Fail(NotFound(queue));
    }

    method BasicPublish(exchange: string, routingKey: string, m: Message)
      modifies this
      ensures log == old(log) + [PublishCall(exchange, routingKey, m)]
      ensures state == Route(old(state), exchange, routingKey, m)
    {
      log := log + [PublishCall(exchange, routingKey, m)];
      state := Route(state, exchange, routingKey, m);
    }

    method BasicAck(tag: nat)
      modifies this
      ensures log == old(log) + [AckCall(tag)] && state == Ack(old(state), tag)
    {
      log := log + [AckCall(tag)];
      state := Ack(state, tag);
    }

    method BasicReject(tag: nat, requeue: bool)
      modifies this
      ensures log == old(log) + [RejectCall(tag, requeue)] && state == Settle(old(state), tag, requeue)
    {
      log := log + [RejectCall(tag, requeue)];
      state := Settle(state, tag, requeue);
    }

    method BasicNack(tag: nat, requeue: bool)
      modifies this
      ensures log == old(log) + [NackCall(tag, requeue)] && state == Settle(old(state), tag, requeue)
    {
      log := log + [NackCall(tag, requeue)];
      state := Settle(state, tag, requeue);
    }

    /** The broker pushes the head of `queue` to the consumer registered on it. */
    method Push(queue: string, autoAck: bool) returns (d: Delivery)
      requires HasMessage(state, queue)
      modifies this
      ensures (state, d) == Deliver(old(state), queue, autoAck) && log == old(log)
    {
      var next := Deliver(state, queue, autoAck);
      state, d := next.0, next.1;
    }
  }
}
