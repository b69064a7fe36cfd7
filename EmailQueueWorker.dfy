/**
  The background worker that drains the `mail_sharp` queue: for every message
  it builds one outcome record, tries to send the e-mail, marks the record sent
  or failed, and writes it to the repository. Sending and writing are given as
  outcomes; the plain consumer of RabbitMQService settles the delivery from how
  the handler ended.
*/
module EmailQueueWorker {
  import opened Wrappers
  import opened Amqp
  import opened RetryPolicy
  import opened RabbitMQService

  /** The queue the worker consumes. */
  const MailQueue: string := "mail_sharp"

  /** The consumer the worker registers: the mail queue, manual acknowledgement. */
  const WorkerConsumer: PlainConsumer := PlainConsumer(MailQueue, false)

  /** A queued e-mail, as the publisher serialises it. */
  datatype EmailMessage = EmailMessage(
    to: string,
    cc: Option<string>,
    bcc: Option<string>,
    subject: string,
    body: string,
    isHtml: bool)

  /** How decoding a delivery's body ended. */
  datatype Decoded =
    | Undecodable(reason: string)
    | NullJob
    | Job(message: EmailMessage)

  /** A stored outcome row; `createdAt` is the clock reading of the handler. */
  datatype EmailRecord = EmailRecord(
    to: string,
    cc: Option<string>,
    bcc: Option<string>,
    subject: string,
    body: string,
    isHtml: bool,
    createdAt: int,
    sentSuccessfully: bool,
    errorMessage: Option<string>)

  /** The record a handled message ends up as, given how its send ended. */
  function OutcomeRecord(m: EmailMessage, send: Outcome<string>, now: int): (r: EmailRecord)
    ensures r.sentSuccessfully <==> send.Pass?
    ensures r.errorMessage == (if send.Fail? then Some(send.error) else None)
    ensures (r.to, r.cc, r.bcc, r.subject, r.body, r.isHtml) == (m.to, m.cc, m.bcc, m.subject, m.body, m.isHtml)
    ensures r.createdAt == now
  {
    var sent := send.Pass?;
    EmailRecord(m.to, m.cc, m.bcc, m.subject, m.body, m.isHtml, now, sent, if sent then None else Some(send.error))
  }

  /** The mutable entity the handler fills in before it is written. */
  class EmailMessageEntity {
    var to: string
    var cc: Option<string>
    var bcc: Option<string>
    var subject: string
    var body: string
    var isHtml: bool
    var createdAt: int
    var sentSuccessfully: bool
    var errorMessage: Option<string>

    /** The initializer of the handler: the message's fields and the clock;
        `sentSuccessfully` and `errorMessage` keep their defaults. */
    constructor (m: EmailMessage, now: int)
      ensures Snapshot() == EmailRecord(m.to, m.cc, m.bcc, m.subject, m.body, m.isHtml, now, false, None)
    {
      to, cc, bcc := m.to, m.cc, m.bcc;
      subject, body, isHtml := m.subject, m.body, m.isHtml;
      createdAt := now;
      sentSuccessfully := false;
      errorMessage := None;
    }

    function Snapshot(): EmailRecord
      reads this
    {
      EmailRecord(to, cc, bcc, subject, body, isHtml, createdAt, sentSuccessfully, errorMessage)
    }
  }

  /** An append-only sink for outcome records. `rows` holds what was stored,
      `calls` every record offered to it, stored or not. */
  class EmailMessageRepository {
    var rows: seq<EmailRecord>
    ghost var calls: seq<EmailRecord>

    constructor ()
      ensures rows == [] && calls == []
    {
      rows := [];
      calls := [];
    }

    /** AddAsync: the write either stores the entity's current state or throws. */
    method Add(e: EmailMessageEntity, write: Outcome<string>) returns (r: Outcome<string>)
      modifies this
      ensures r == write
      ensures calls == old(calls) + [e.Snapshot()]
      ensures rows == old(rows) + (if write.Pass? then [e.Snapshot()] else [])
    {
      calls := calls + [e.Snapshot()];
      if write.Pass? {
        rows := rows + [e.Snapshot()];
      }
      r := write;
    }
  }

  /** The message handler: exactly one record is offered to the repository, after
      the send has ended, and it records that ending; a failed send is caught, a
      failed write is what the handler ends with. */
  method HandleMessage(m: EmailMessage, send: Outcome<string>, write: Outcome<string>, now: int, repo: EmailMessageRepository)
    returns (r: Outcome<string>)
    modifies repo
    ensures r == write
    ensures repo.calls == old(repo.calls) + [OutcomeRecord(m, send, now)]
    ensures repo.rows == old(repo.rows) + (if write.Pass? then [OutcomeRecord(m, send, now)] else [])
  {
    var entity := new EmailMessageEntity(m, now);
    if send.Pass? {
      entity.sentSuccessfully := true;
    } else {
      entity.sentSuccessfully := false;
      entity.errorMessage := Some(send.error);
    }
    r := repo.Add(entity, write);
  }

  /** How the try block of the plain consumer's callback ends for the worker: the
      send outcome never reaches it, only the repository write does. */
  function WorkerAttempt(decoded: Decoded, write: Outcome<string>): (a: Attempt)
    ensures Succeeded(a) <==> decoded.NullJob? || (decoded.Job? && write.Pass?)
    ensures a.DecodeFailed? <==> decoded.Undecodable?
  {
    match decoded
    case Undecodable(reason) => DecodeFailed(reason)
    case NullJob => NullPayload
    case Job(_) => Handled(write)
  }

  /** One delivery to the worker's consumer: decode, run the handler for a
      non-null message, then settle as the plain consumer does. */
  method OnWorkerDelivery(b: Broker, d: Delivery, decoded: Decoded, send: Outcome<string>, write: Outcome<string>,
                          now: int, repo: EmailMessageRepository)
    modifies b, repo
    ensures b.log == old(b.log) + PlainCalls(d, PlainSettlement(WorkerAttempt(decoded, write), false))
    ensures b.state == ApplyAll(old(b.state), PlainCalls(d, PlainSettlement(WorkerAttempt(decoded, write), false)))
    ensures decoded.Job? ==> repo.calls == old(repo.calls) + [OutcomeRecord(decoded.message, send, now)]
    ensures decoded.Job? ==> repo.rows == old(repo.rows) + (if write.Pass? then [OutcomeRecord(decoded.message, send, now)] else [])
    ensures !decoded.Job? ==> repo.calls == old(repo.calls) && repo.rows == old(repo.rows)
  {
    var attempt: Attempt;
    match decoded {
      case Undecodable(reason) =>
        attempt := DecodeFailed(reason);
      case NullJob =>
        attempt := NullPayload;
      case Job(message) =>
        var handled := HandleMessage(message, send, write, now, repo);
        attempt := Handled(handled);
    }
    OnDelivery(b, WorkerConsumer, d, attempt);
  }

  /** The broker pushes the head of `mail_sharp` and the worker handles it: one
      round of RetryPolicy.RunPlain for the worker's consumer. */
  method WorkerRound(b: Broker, decoded: Decoded, send: Outcome<string>, write: Outcome<string>, now: int, repo: EmailMessageRepository)
    requires HasMessage(b.state, MailQueue)
    modifies b, repo
    ensures b.state == PlainStep(old(b.state), WorkerConsumer, WorkerAttempt(decoded, write))
    ensures b.log == old(b.log) + PlainCalls(Deliver(old(b.state), MailQueue, false).1, PlainSettlement(WorkerAttempt(decoded, write), false))
    ensures decoded.Job? ==> repo.calls == old(repo.calls) + [OutcomeRecord(decoded.message, send, now)]
    ensures decoded.Job? ==> repo.rows == old(repo.rows) + (if write.Pass? then [OutcomeRecord(decoded.message, send, now)] else [])
    ensures !decoded.Job? ==> repo.calls == old(repo.calls) && repo.rows == old(repo.rows)
  {
    var d := b.Push(MailQueue, false);
    OnWorkerDelivery(b, d, decoded, send, write, now, repo);
  }

  /** ExecuteAsync: the worker registers the plain consumer on `mail_sharp` with
      manual acknowledgement. */
  method ExecuteAsync(service: RabbitMQService, b: Broker, connect: Outcome<string>, openChannel: Outcome<string>)
    returns (r: Result<PlainConsumer, ServiceError>)
    modifies service, b
    ensures r.Success? ==> r.value == WorkerConsumer
    ensures r.Success? <==> ChannelOutcome(old(service.HasOpenConnection()), connect, openChannel).Pass?
                            && Declare(old(b.state), MailQueue, true, map[]).Success?
    ensures service.Obtained(connect) && service.disposed == old(service.disposed)
    ensures var channel := ChannelOutcome(old(service.HasOpenConnection()), connect, openChannel);
      && (channel.Fail? ==> r == Failure(channel.error) && b.log == old(b.log) && b.state == old(b.state)
                            && service.openChannels == old(service.openChannels))
      && (channel.Pass? && Declare(old(b.state), MailQueue, true, map[]).Failure? ==>
            && r == Failure(ChannelError(PreconditionFailed(MailQueue)))
            && b.state == old(b.state) && b.log == old(b.log) + [QueueDeclareCall(MailQueue, true, map[])]
            && service.openChannels == old(service.openChannels))
      && (channel.Pass? && Declare(old(b.state), MailQueue, true, map[]).Success? ==>
            && b.state == Declare(old(b.state), MailQueue, true, map[]).value
            && b.log == old(b.log) + [QueueDeclareCall(MailQueue, true, map[]), ConsumeCall(MailQueue, false)]
            && service.openChannels == old(service.openChannels) + 1)
  {
    r := service.Consume(b, MailQueue, false, connect, openChannel);
  }

  // ---------------------------------------------------------------------------
  // What the worker does to a delivery
  // ---------------------------------------------------------------------------

  /** A delivered message whose send fails but whose record is written is acked
      once, and the row written says it was not sent, with the send's error. */
  method SendFailureStillAcks(b: Broker, d: Delivery, m: EmailMessage, send: Outcome<string>, now: int, repo: EmailMessageRepository)
    requires send.Fail?
    modifies b, repo
    ensures b.log == old(b.log) + [AckCall(d.tag)]
    ensures b.state == Ack(old(b.state), d.tag)
    ensures repo.rows == old(repo.rows) + [OutcomeRecord(m, send, now)]
    ensures !repo.rows[|repo.rows| - 1].sentSuccessfully && repo.rows[|repo.rows| - 1].errorMessage == Some(send.error)
  {
    OnWorkerDelivery(b, d, Job(m), send, Pass, now, repo);
    ApplyOne(old(b.state), AckCall(d.tag));
  }

  /** A message whose record cannot be written is nacked once with requeue,
      whether or not its send succeeded. */
  lemma WriteFailureRequeues(d: Delivery, m: EmailMessage, write: Outcome<string>)
    requires write.Fail?
    ensures PlainCalls(d, PlainSettlement(WorkerAttempt(Job(m), write), false)) == [NackCall(d.tag, true)]
  {
  }

  /** The worker's settlement depends on the decode and the write alone. */
  lemma SettlementIgnoresSend(decoded: Decoded, write: Outcome<string>)
    ensures PlainSettlement(WorkerAttempt(decoded, write), false) ==
      (if decoded.Undecodable? || (decoded.Job? && write.Fail?) then NackRequeue else AckDelivery)
  {
  }

  /** While the repository keeps failing, each delivery of a mail message puts it
      back at the front of the queue: after any number of them the broker holds
      exactly what it held before. The worker's attempts are failed plain
      attempts, so this is RetryPolicy.FailingForeverKeepsMessage for them. */
  lemma {:induction false} RepositoryOutageRedelivers(s: BrokerState, ms: seq<EmailMessage>, writes: seq<Outcome<string>>)
    requires HasMessage(s, MailQueue) && TagsIssued(s)
    requires |ms| == |writes| && forall i :: 0 <= i < |writes| ==> writes[i].Fail?
    ensures RunPlain(s, WorkerConsumer, seq(|ms|, i requires 0 <= i < |ms| => WorkerAttempt(Job(ms[i]), writes[i])))
         == s.(nextTag := s.nextTag + |ms|)
  {
    var attempts := seq(|ms|, i requires 0 <= i < |ms| => WorkerAttempt(Job(ms[i]), writes[i]));
    assert forall i :: 0 <= i < |attempts| ==> !Succeeded(attempts[i]);
    FailingForeverKeepsMessage(s, WorkerConsumer, attempts);
  }

  /** The worker host first ensures `mail_sharp` with its dead-letter queue
      (MailSharp.Worker/Program.cs) and then starts this worker, whose plain
      declaration of the same queue is then refused: the consumer is never
      registered. */
  lemma StartupDeclarationConflicts(s: BrokerState)
    requires EnsureTopology(s, MailQueue, true).Success?
    ensures Declare(EnsureTopology(s, MailQueue, true).value, MailQueue, true, map[]) == Failure(PreconditionFailed(MailQueue))
  {
    PlainDeclareConflictsWithTopology(s, MailQueue, true);
  }
}
