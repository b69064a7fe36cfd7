/**
  The message-queue client of MailSharp: a service object that owns one lazily
  created, re-creatable broker connection, opens a channel per operation, and
  declares, publishes and consumes through it. The two delivery callbacks it
  registers (the retry consumer and the plain consumer) are written here as
  methods on the broker and are proved to do what RetryPolicy's decision
  functions say.

  What the network and the libraries do is given to every method as a
  parameter: `connect` is how creating a connection ends, `openChannel` how
  opening a channel ends, `payload` how JSON serialisation ends, `transport`
  how sending a publish frame ends, and `stamp` the message id and time a
  publish is stamped with.
*/
module RabbitMQService {
  import opened Wrappers
  import opened Amqp
  import opened RetryPolicy

  /** The service's configuration (RabbitMQOptions). */
  datatype Settings = Settings(
    hostName: string,
    port: int32,
    userName: string,
    password: string,
    virtualHost: string,
    clientProvidedName: string,
    requestedConnectionTimeout: int32,
    requestedHeartbeat: int32,
    automaticRecoveryEnabled: bool)

  /** What the connection factory is given. */
  datatype Endpoint = Endpoint(
    hostName: string,
    port: int32,
    userName: string,
    password: string,
    virtualHost: string,
    clientProvidedName: string)

  function FactoryEndpoint(o: Settings): Endpoint
  {
    Endpoint(o.hostName, o.port, o.userName, o.password, o.virtualHost, o.clientProvidedName)
  }

  /** The factory sees the six addressing settings and nothing else: the
      timeout, heartbeat and recovery settings never reach a connection. */
  lemma FactoryEndpointIgnoresTuning(o: Settings, p: Settings)
    ensures FactoryEndpoint(o) == FactoryEndpoint(p) <==>
      && o.hostName == p.hostName && o.port == p.port && o.userName == p.userName
      && o.password == p.password && o.virtualHost == p.virtualHost
      && o.clientProvidedName == p.clientProvidedName
  {
  }

  /** Why a service operation throws. */
  datatype ServiceError =
    | ConnectFailed(reason: string)
    | ChannelFailed(reason: string)
    | SerializeFailed(reason: string)
    | TransportFailed(reason: string)
    | ChannelError(error: AmqpError)

  /** How a channel request ends: a missing or closed connection must first be
      created (and that may fail), then the channel is opened (and that may fail). */
  function ChannelOutcome(connected: bool, connect: Outcome<string>, openChannel: Outcome<string>): (r: Outcome<ServiceError>)
    ensures r.Pass? <==> (connected || connect.Pass?) && openChannel.Pass?
    ensures !connected && connect.Fail? ==> r == Fail(ConnectFailed(connect.error))
  {
    if !connected && connect.Fail? then Fail(ConnectFailed(connect.error))
    else if openChannel.Fail? then Fail(ChannelFailed(openChannel.error))
    else Pass
  }

  // ---------------------------------------------------------------------------
  // Queue topology
  // ---------------------------------------------------------------------------

  /** The two declarations of EnsureQueueWithDeadLetterAsync, in order. */
  function TopologyCalls(name: string, durable: bool): seq<BrokerCall>
  {
    [QueueDeclareCall(name, durable, DeadLetterArguments(name)), QueueDeclareCall(DeadLetterQueueName(name), durable, map[])]
  }

  /** The working queue with its dead-letter arguments, then `<name>_dead` without arguments. */
  function EnsureTopology(s: BrokerState, name: string, durable: bool): (r: Result<BrokerState, AmqpError>)
    ensures r.Failure? ==> r.error.PreconditionFailed? && r.error.queue in {name, DeadLetterQueueName(name)}
    ensures r.Success? ==> r.value.queues.Keys == s.queues.Keys + {name, DeadLetterQueueName(name)}
  {
    match Declare(s, name, durable, DeadLetterArguments(name))
    case Failure(e) => Failure(e)
    case Success(t) => Declare(t, DeadLetterQueueName(name), durable, map[])
  }

  /** The broker after the topology declarations, whether they all succeed or
      one is refused (the declarations before it stay in effect). */
  function TopologyReached(s: BrokerState, name: string, durable: bool): (t: BrokerState)
    ensures EnsureTopology(s, name, durable).Success? ==> t == EnsureTopology(s, name, durable).value
  {
    match Declare(s, name, durable, DeadLetterArguments(name))
    case Failure(_) => s
    case Success(t) =>
      match Declare(t, DeadLetterQueueName(name), durable, map[])
      case Failure(_) => t
      case Success(u) => u
  }

  /** The declarations sent: a refused first one ends the sequence. */
  function TopologyCallsMade(s: BrokerState, name: string, durable: bool): seq<BrokerCall>
  {
    if Declare(s, name, durable, DeadLetterArguments(name)).Failure? then TopologyCalls(name, durable)[..1]
    else TopologyCalls(name, durable)
  }

  function TopologyOutcome(s: BrokerState, name: string, durable: bool): Outcome<ServiceError>
  {
    match EnsureTopology(s, name, durable)
    case Success(_) => Pass
    case Failure(e) => Fail(ChannelError(e))
  }

  /** Both declarations succeed exactly when each queue is new or was declared the
      same way; afterwards the working queue dead-letters into `<name>_dead`, both
      queues have the requested durability, and no message has moved. */
  lemma EnsureTopologyEstablishesLayout(s: BrokerState, name: string, durable: bool)
    ensures var dlq := DeadLetterQueueName(name);
      EnsureTopology(s, name, durable).Success? <==>
        && (name !in s.queues || (s.queues[name].durable == durable && s.queues[name].arguments == DeadLetterArguments(name)))
        && (dlq !in s.queues || (s.queues[dlq].durable == durable && s.queues[dlq].arguments == map[]))
    ensures match EnsureTopology(s, name, durable)
      case Success(t) =>
        var dlq := DeadLetterQueueName(name);
        && (TagsIssued(s) ==> DeadLetterLayout(t, name))
        && t.queues[name].durable == durable && t.queues[dlq].durable == durable
        && t.queues[name].messages == (if name in s.queues then s.queues[name].messages else [])
        && t.queues[dlq].messages == (if dlq in s.queues then s.queues[dlq].messages else [])
        && t.unacked == s.unacked && t.nextTag == s.nextTag
      case Failure(e) => e.PreconditionFailed?
  {
    var dlq := DeadLetterQueueName(name);
    DeclareSucceedsIff(s, name, durable, DeadLetterArguments(name));
    match Declare(s, name, durable, DeadLetterArguments(name))
    case Failure(_) =>
    case Success(t) =>
      DeclareSucceedsIff(t, dlq, durable, map[]);
  }

  /** Ensuring the topology a second time changes nothing. */
  lemma EnsureTopologyIdempotent(s: BrokerState, name: string, durable: bool)
    requires EnsureTopology(s, name, durable).Success?
    ensures EnsureTopology(EnsureTopology(s, name, durable).value, name, durable) == EnsureTopology(s, name, durable)
  {
    var dlq := DeadLetterQueueName(name);
    var t := EnsureTopology(s, name, durable).value;
    EnsureTopologyEstablishesLayout(s, name, durable);
    assert Declare(t, name, durable, DeadLetterArguments(name)) == Success(t);
    assert Declare(t, dlq, durable, map[]) == Success(t);
  }

  /** After the topology is in place, the declaration ConsumeAsync and
      PublishSimpleAsync make (durable, no arguments) is refused with
      PRECONDITION_FAILED, because the working queue carries dead-letter
      arguments. */
  lemma PlainDeclareConflictsWithTopology(s: BrokerState, name: string, durable: bool)
    requires EnsureTopology(s, name, durable).Success?
    ensures Declare(EnsureTopology(s, name, durable).value, name, true, map[]) == Failure(PreconditionFailed(name))
  {
    EnsureTopologyEstablishesLayout(s, name, durable);
    assert DeadLetterExchangeKey in DeadLetterArguments(name);
  }

  // ---------------------------------------------------------------------------
  // The delivery callbacks
  // ---------------------------------------------------------------------------

  /** The retry consumer's callback for delivery `d`, whose try block ended as
      `attempt`. It returns false when reading `x-retries` throws, which leaves
      the delivery unsettled. */
  method OnRetryDelivery(b: Broker, c: RetryConsumer, d: Delivery, attempt: Attempt, stamp: Stamp) returns (settled: bool)
    modifies b
    ensures var s := RetrySettlement(attempt, d.message.props.headers, c.maxRetries);
      && settled == !s.Unsettled?
      && b.log == old(b.log) + RetryCalls(c, d, s, stamp)
      && b.state == ApplyAll(old(b.state), RetryCalls(c, d, s, stamp))
  {
    ghost var s0 := b.state;
    if Succeeded(attempt) {
      b.BasicAck(d.tag);
      ApplyOne(s0, AckCall(d.tag));
      return true;
    }
    var headers := d.message.props.headers;
    var retryCount: int32 := 0;
    if headers.Some? && RetryHeader in headers.value {
      var converted := ToInt32(headers.value[RetryHeader]);
      if converted.None? {
        return false;
      }
      retryCount := converted.value;
    }
    retryCount := Increment(retryCount);
    if retryCount >= c.maxRetries {
      b.BasicReject(d.tag, false);
      ApplyOne(s0, RejectCall(d.tag, false));
    } else {
      var copy := Republished(d.message, retryCount, stamp);
      b.BasicPublish(DefaultExchange, c.queue, copy);
      b.BasicAck(d.tag);
      ApplyTwo(s0, PublishCall(DefaultExchange, c.queue, copy), AckCall(d.tag));
    }
    settled := true;
  }

  /** The broker pushes the head of the retry consumer's queue and the callback
      handles it: one round of RetryPolicy.RunRetry. */
  method RetryRound(b: Broker, c: RetryConsumer, attempt: Attempt, stamp: Stamp)
    requires HasMessage(b.state, c.queue)
    modifies b
    ensures b.state == RetryStep(old(b.state), c, Round(attempt, stamp))
    ensures var d := Deliver(old(b.state), c.queue, false).1;
      b.log == old(b.log) + RetryCalls(c, d, RetrySettlement(attempt, d.message.props.headers, c.maxRetries), stamp)
  {
    var d := b.Push(c.queue, false);
    var _ := OnRetryDelivery(b, c, d, attempt, stamp);
  }

  /** The plain consumer's callback: ack on success, nack with requeue on
      failure, and neither under automatic acknowledgement. */
  method OnDelivery(b: Broker, c: PlainConsumer, d: Delivery, attempt: Attempt)
    modifies b
    ensures var s := PlainSettlement(attempt, c.autoAck);
      && b.log == old(b.log) + PlainCalls(d, s)
      && b.state == ApplyAll(old(b.state), PlainCalls(d, s))
  {
    ghost var s0 := b.state;
    if Succeeded(attempt) {
      if !c.autoAck {
        b.BasicAck(d.tag);
        ApplyOne(s0, AckCall(d.tag));
      }
    } else {
      if !c.autoAck {
        b.BasicNack(d.tag, true);
        ApplyOne(s0, NackCall(d.tag, true));
      }
    }
  }

  /** One round of RetryPolicy.RunPlain. */
  method PlainRound(b: Broker, c: PlainConsumer, attempt: Attempt)
    requires HasMessage(b.state, c.queue)
    modifies b
    ensures b.state == PlainStep(old(b.state), c, attempt)
    ensures b.log == old(b.log) + PlainCalls(Deliver(old(b.state), c.queue, c.autoAck).1, PlainSettlement(attempt, c.autoAck))
  {
    var d := b.Push(c.queue, c.autoAck);
    OnDelivery(b, c, d, attempt);
  }

  // ---------------------------------------------------------------------------
  // Connections and the service
  // ---------------------------------------------------------------------------

  class Connection {
    const endpoint: Endpoint
    var isOpen: bool

    constructor (e: Endpoint)
      ensures endpoint == e && isOpen
    {
      endpoint := e;
      isOpen := true;
    }

    method Close()
      modifies this
      ensures !isOpen
    {
      isOpen := false;
    }
  }

  class RabbitMQService {
    const options: Settings
    var connection: Connection?
    var disposed: bool
    /** How many connections this service has created. */
    ghost var connectionsCreated: nat
    /** How many channels this service opened that are still open. */
    ghost var openChannels: nat

    constructor (o: Settings)
      ensures options == o && connection == null && !disposed
      ensures connectionsCreated == 0 && openChannels == 0
    {
      options := o;
      connection := null;
      disposed := false;
      connectionsCreated := 0;
      openChannels := 0;
    }

    predicate HasOpenConnection()
      reads this, connection
    {
      connection != null && connection.isOpen
    }

    /** What obtaining a connection did: an open connection is kept; otherwise a
        successful `connect` stores exactly one new open connection to the
        configured endpoint, and a failed one leaves the field as it was. */
    twostate predicate Obtained(connect: Outcome<string>)
      reads this, connection
    {
      if old(HasOpenConnection()) || connect.Fail? then
        connection == old(connection) && connectionsCreated == old(connectionsCreated)
      else
        && connection != null && fresh(connection) && connection.isOpen
        && connection.endpoint == FactoryEndpoint(options)
        && connectionsCreated == old(connectionsCreated) + 1
    }

    method GetConnection(connect: Outcome<string>) returns (r: Result<Connection, ServiceError>)
      modifies this
      ensures Obtained(connect)
      ensures r.Success? <==> old(HasOpenConnection()) || connect.Pass?
      ensures r.Success? ==> connection == r.value && r.value.isOpen
      ensures r.Failure? ==> r.error == ConnectFailed(connect.error)
      ensures disposed == old(disposed) && openChannels == old(openChannels)
    {
      if connection != null && connection.isOpen {
        return Success(connection);
      }
      var e := InitializeConnection(connect);
      if e.Fail? {
        return Failure(e.error);
      }
      r := Success(connection);
    }

    method InitializeConnection(connect: Outcome<string>) returns (r: Outcome<ServiceError>)
      modifies this
      ensures connect.Fail? ==> r == Fail(ConnectFailed(connect.error)) && connection == old(connection)
      ensures connect.Fail? ==> connectionsCreated == old(connectionsCreated)
      ensures connect.Pass? ==> r == Pass && connection != null && fresh(connection) && connection.isOpen
      ensures connect.Pass? ==> connection.endpoint == FactoryEndpoint(options) && connectionsCreated == old(connectionsCreated) + 1
      ensures disposed == old(disposed) && openChannels == old(openChannels)
    {
      var endpoint := FactoryEndpoint(options);
      if connect.Fail? {
        return Fail(ConnectFailed(connect.error));
      }
      connection := new Connection(endpoint);
      connectionsCreated := connectionsCreated + 1;
      r := Pass;
    }

    method CreateChannel(connect: Outcome<string>, openChannel: Outcome<string>) returns (r: Outcome<ServiceError>)
      modifies this
      ensures Obtained(connect)
      ensures r == ChannelOutcome(old(HasOpenConnection()), connect, openChannel)
      ensures openChannels == old(openChannels) + (if r.Pass? then 1 else 0)
      ensures disposed == old(disposed)
    {
      var c := GetConnection(connect);
      if c.Failure? {
        return Fail(c.error);
      }
      if openChannel.Fail? {
        return Fail(ChannelFailed(openChannel.error));
      }
      openChannels := openChannels + 1;
      r := Pass;
    }

    /** Declares the working queue with dead-letter arguments, then `<name>_dead`.
        A refused declaration is a channel error, which closes the channel; on
        success the channel is left open. */
    method EnsureQueueWithDeadLetter(b: Broker, name: string, durable: bool, connect: Outcome<string>, openChannel: Outcome<string>)
      returns (r: Outcome<ServiceError>)
      modifies this, b
      ensures Obtained(connect) && disposed == old(disposed)
      ensures var channel := ChannelOutcome(old(HasOpenConnection()), connect, openChannel);
        && (channel.Fail? ==> r == channel && b.log == old(b.log) && b.state == old(b.state) && openChannels == old(openChannels))
        && (channel.Pass? ==>
              && r == TopologyOutcome(old(b.state), name, durable)
              && b.state == TopologyReached(old(b.state), name, durable)
              && b.log == old(b.log) + TopologyCallsMade(old(b.state), name, durable)
              && openChannels == old(openChannels) + (if r.Pass? then 1 else 0))
    {
      r := CreateChannel(connect, openChannel);
      if r.Fail? {
        return;
      }
      var first := b.QueueDeclare(name, durable, DeadLetterArguments(name));
      if first.Fail? {
        openChannels := openChannels - 1;
        return Fail(ChannelError(first.error));
      }
      var second := b.QueueDeclare(DeadLetterQueueName(name), durable, map[]);
      if second.Fail? {
        openChannels := openChannels - 1;
        return Fail(ChannelError(second.error));
      }
      r := Pass;
    }

    /** Declares the working queue (always durable, with dead-letter arguments)
        and `<name>_dead` (always durable, no arguments), then registers the retry
        consumer with manual acknowledgement. The channel stays open for it. */
    method CreateQueueWithRetry(b: Broker, name: string, maxRetries: int32, durable: bool, connect: Outcome<string>, openChannel: Outcome<string>)
      returns (r: Result<RetryConsumer, ServiceError>)
      modifies this, b
      ensures Obtained(connect) && disposed == old(disposed)
      ensures var channel := ChannelOutcome(old(HasOpenConnection()), connect, openChannel);
        && (channel.Fail? ==> r == Failure(channel.error) && b.log == old(b.log) && b.state == old(b.state) && openChannels == old(openChannels))
        && (channel.Pass? && TopologyOutcome(old(b.state), name, true).Fail? ==>
              && r == Failure(TopologyOutcome(old(b.state), name, true).error)
              && b.state == TopologyReached(old(b.state), name, true)
              && b.log == old(b.log) + TopologyCallsMade(old(b.state), name, true)
              && openChannels == old(openChannels))
        && (channel.Pass? && TopologyOutcome(old(b.state), name, true).Pass? ==>
              && r == Success(RetryConsumer(name, maxRetries, durable))
              && b.state == EnsureTopology(old(b.state), name, true).value
              && b.log == old(b.log) + TopologyCalls(name, true) + [ConsumeCall(name, false)]
              && openChannels == old(openChannels) + 1)
    {
      var channel := CreateChannel(connect, openChannel);
      if channel.Fail? {
        return Failure(channel.error);
      }
      var first := b.QueueDeclare(name, true, DeadLetterArguments(name));
      if first.Fail? {
        openChannels := openChannels - 1;
        return Failure(ChannelError(first.error));
      }
      var second := b.QueueDeclare(DeadLetterQueueName(name), true, map[]);
      if second.Fail? {
        openChannels := openChannels - 1;
        return Failure(ChannelError(second.error));
      }
      EnsureTopologyEstablishesLayout(old(b.state), name, true);
      var consumed := b.BasicConsume(name, false);
      if consumed.Fail? {
        assert false;
      }
      r := Success(RetryConsumer(name, maxRetries, durable));
    }

    /** Publishes `payload` once through the default exchange with routing key
        `name`, persistent as `durable` says, and closes its channel on every path. */
    method Publish(b: Broker, name: string, payload: Result<seq<byte>, string>, durable: bool, stamp: Stamp,
                   transport: Outcome<string>, connect: Outcome<string>, openChannel: Outcome<string>)
      returns (r: Outcome<ServiceError>)
      modifies this, b
      ensures Obtained(connect) && disposed == old(disposed) && openChannels == old(openChannels)
      ensures var channel := ChannelOutcome(old(HasOpenConnection()), connect, openChannel);
        && (channel.Fail? ==> r == channel)
        && (channel.Pass? && payload.Failure? ==> r == Fail(SerializeFailed(payload.error)))
        && (channel.Pass? && payload.Success? && transport.Fail? ==> r == Fail(TransportFailed(transport.error)))
        && (r.Fail? ==> b.log == old(b.log) && b.state == old(b.state))
        && (channel.Pass? && payload.Success? && transport.Pass? ==>
              var m := Message(payload.value, Properties(durable, Some(stamp.messageId), Some(stamp.unixSeconds), None));
              && r == Pass
              && b.log == old(b.log) + [PublishCall(DefaultExchange, name, m)]
              && b.state == Route(old(b.state), DefaultExchange, name, m))
    {
      r := CreateChannel(connect, openChannel);
      if r.Fail? {
        return;
      }
      if payload.Failure? {
        r := Fail(SerializeFailed(payload.error));
      } else if transport.Fail? {
        r := Fail(TransportFailed(transport.error));
      } else {
        var properties := Properties(durable, Some(stamp.messageId), Some(stamp.unixSeconds), None);
        b.BasicPublish(DefaultExchange, name, Message(payload.value, properties));
      }
      openChannels := openChannels - 1;
    }

    /** Declares `name` durable without arguments, then publishes the payload with
        no properties; the channel is closed on every path. */
    method PublishSimple(b: Broker, name: string, payload: Result<seq<byte>, string>,
                         transport: Outcome<string>, connect: Outcome<string>, openChannel: Outcome<string>)
      returns (r: Outcome<ServiceError>)
      modifies this, b
      ensures Obtained(connect) && disposed == old(disposed) && openChannels == old(openChannels)
      ensures var channel := ChannelOutcome(old(HasOpenConnection()), connect, openChannel);
        && (channel.Fail? ==> r == channel && b.log == old(b.log) && b.state == old(b.state))
        && (channel.Pass? && Declare(old(b.state), name, true, map[]).Failure? ==>
              && r == Fail(ChannelError(Declare(old(b.state), name, true, map[]).error))
              && b.log == old(b.log) + [QueueDeclareCall(name, true, map[])] && b.state == old(b.state))
        && (channel.Pass? && Declare(old(b.state), name, true, map[]).Success? ==>
              var t := Declare(old(b.state), name, true, map[]).value;
              && (payload.Failure? ==> r == Fail(SerializeFailed(payload.error)))
              && (payload.Success? && transport.Fail? ==> r == Fail(TransportFailed(transport.error)))
              && (r.Fail? ==> b.log == old(b.log) + [QueueDeclareCall(name, true, map[])] && b.state == t)
              && (payload.Success? && transport.Pass? ==>
                    var m := Message(payload.value, BlankProperties);
                    && r == Pass
                    && b.log == old(b.log) + [QueueDeclareCall(name, true, map[]), PublishCall(DefaultExchange, name, m)]
                    && b.state == Route(t, DefaultExchange, name, m)))
    {
      r := CreateChannel(connect, openChannel);
      if r.Fail? {
        return;
      }
      var declared := b.QueueDeclare(name, true, map[]);
      if declared.Fail? {
        r := Fail(ChannelError(declared.error));
      } else if payload.Failure? {
        r := Fail(SerializeFailed(payload.error));
      } else if transport.Fail? {
        r := Fail(TransportFailed(transport.error));
      } else {
        b.BasicPublish(DefaultExchange, name, Message(payload.value, BlankProperties));
      }
      openChannels := openChannels - 1;
    }

    /** Declares `name` durable without arguments and registers the plain
        consumer on it; on a refused declaration the channel is closed and the
        error rethrown, otherwise the channel stays open for the consumer. */
    method Consume(b: Broker, name: string, autoAck: bool, connect: Outcome<string>, openChannel: Outcome<string>)
      returns (r: Result<PlainConsumer, ServiceError>)
      modifies this, b
      ensures Obtained(connect) && disposed == old(disposed)
      ensures var channel := ChannelOutcome(old(HasOpenConnection()), connect, openChannel);
        && (channel.Fail? ==> r == Failure(channel.error) && b.log == old(b.log) && b.state == old(b.state) && openChannels == old(openChannels))
        && (channel.Pass? && Declare(old(b.state), name, true, map[]).Failure? ==>
              && r == Failure(ChannelError(Declare(old(b.state), name, true, map[]).error))
              && b.state == old(b.state) && b.log == old(b.log) + [QueueDeclareCall(name, true, map[])]
              && openChannels == old(openChannels))
        && (channel.Pass? && Declare(old(b.state), name, true, map[]).Success? ==>
              && r == Success(PlainConsumer(name, autoAck))
              && b.state == Declare(old(b.state), name, true, map[]).value
              && b.log == old(b.log) + [QueueDeclareCall(name, true, map[]), ConsumeCall(name, autoAck)]
              && openChannels == old(openChannels) + 1)
    {
      var channel := CreateChannel(connect, openChannel);
      if channel.Fail? {
        return Failure(channel.error);
      }
      var declared := b.QueueDeclare(name, true, map[]);
      if declared.Fail? {
        openChannels := openChannels - 1;
        return Failure(ChannelError(declared.error));
      }
      DeclareSucceedsIff(old(b.state), name, true, map[]);
      var consumed := b.BasicConsume(name, autoAck);
      if consumed.Fail? {
        assert false;
      }
      r := Success(PlainConsumer(name, autoAck));
    }

    /** Closes an open connection once; a second call does nothing. A close that
        throws is swallowed and leaves the service not disposed. */
    method Dispose(close: Outcome<string>)
      modifies this, connection
      ensures connection == old(connection) && connectionsCreated == old(connectionsCreated)
      ensures openChannels == old(openChannels)
      ensures old(disposed) ==> disposed && (connection != null ==> connection.isOpen == old(connection.isOpen))
      ensures !old(disposed) && !old(HasOpenConnection()) ==> disposed && (connection != null ==> !connection.isOpen)
      ensures !old(disposed) && old(HasOpenConnection()) ==>
        (close.Pass? ==> disposed && !connection.isOpen) && (close.Fail? ==> !disposed && connection.isOpen)
    {
      if disposed {
        return;
      }
      if connection != null && connection.isOpen {
        if close.Fail? {
          return;
        }
        connection.Close();
      }
      disposed := true;
    }
  }
}
