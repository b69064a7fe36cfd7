# MailSharp core, modelled in Dafny

MailSharp queues e-mails on RabbitMQ and sends them from a background worker.
This project models three parts of it and proves properties of each.

- **The message-queue client** (`RabbitMQService`). The service owns one lazily
  created connection, which is re-created when closed, and its disposal is
  idempotent. It declares a working queue together with its dead-letter queue
  `<queue>_dead`. It publishes through the default exchange. It registers two
  kinds of consumer:
  - the *retry consumer* acks a delivery whose handler succeeded. Otherwise it
    reads the `x-retries` header (0 when absent) and adds one. It then either
    rejects the delivery without requeue, so RabbitMQ dead-letters it into
    `<queue>_dead`, or republishes the body with the new count and acks the
    original;
  - the *plain consumer* acks on success and nacks with requeue on failure.
    Under automatic acknowledgement it does neither.
- **The e-mail worker** (`EmailQueueWorker`). For every message on `mail_sharp`
  it builds one outcome record, tries the send, and marks the record sent or
  failed. It then writes the record once to the repository. How the write ends,
  not how the send ends, decides whether the delivery is acked or requeued.
- **Recipient extraction** (`FileProcessor`). The file extension picks a reader
  (CSV, JSON, Excel, text). Values are trimmed, except on the JSON path. The
  reader keeps the values that are non-empty and contain `@`, then drops
  repetitions and keeps first occurrences. A null JSON or Excel value is read
  as the empty string by the helper `FileProcessor.Present`.

The broker is modelled as an abstract AMQP 0-9-1 broker (`Amqp.dfy`) with these parts:
- queues by name, with durability, arguments and a message sequence;
- unacknowledged deliveries by tag;
- the default exchange;
- RabbitMQ's dead-letter arguments `x-dead-letter-exchange` and `x-dead-letter-routing-key`.

A class `Broker` holds this state and a ghost log of every method the client
sends. Statements such as "acked exactly once" or "two declarations, in order"
are made about that log.

Everything the network, the clock and the libraries decide is a parameter of
the method that depends on it:
- how creating a connection or a channel ends;
- how JSON serialisation and a publish frame end;
- how a handler, a send or a repository write ends;
- the message id and timestamp of a publish;
- what the CSV, JSON and Excel libraries read from a file.

Files:
- `Wrappers.dfy`: `Option`, `Result` and `Outcome`.
- `Amqp.dfy`: the broker model.
- `RetryPolicy.dfy`: the two consumers' decisions as functions, and what
  repeated deliveries do to the broker.
- `RabbitMQService.dfy`: the service class and the two delivery callbacks as
  methods on the broker.
- `EmailQueueWorker.dfy`: the entity, the repository, the handler and the
  worker.
- `FileProcessor.dfy`: trimming, filtering, de-duplication, the four readers
  and the dispatch.

Results worth knowing:
- A message that is alone in its working queue, and whose handler always fails,
  is delivered exactly `max(1, maxRetries)` times. Its last retry copy then
  sits in `<queue>_dead` with the original body, and no new delivery is left unacknowledged
  (`RetryPolicy.AlwaysFailingIsDeadLettered`). Each single delivery is proved
  whatever else is queued behind the message (`RetryPolicy.FailedRoundRepublishes`,
  `RetryPolicy.LastRoundDeadLetters`, `RetryPolicy.SucceededRoundAcks`).
- The worker host first declares `mail_sharp` with dead-letter arguments
  (MailSharp.Worker/Program.cs:55). The worker's `ConsumeAsync` then declares
  the same queue without arguments. RabbitMQ refuses an inequivalent
  redeclaration with PRECONDITION_FAILED, so the worker's consumer is never
  registered on a broker where the host's declaration succeeded
  (`EmailQueueWorker.StartupDeclarationConflicts`).
- While the repository fails, a mail message is requeued at the front of its
  queue forever (`EmailQueueWorker.RepositoryOutageRedelivers`).

Two details of the code worth knowing:
- A republished retry copy is always persistent, because line 120 of
  RabbitMQService.cs overrides the `Persistent = durable` of line 114. The
  `durable` flag of the retry consumer is therefore not preserved.
- `CreateQueueWithRetryAsync` declares both queues durable whatever `durable` says.

## Model

| member | source | states |
|---|---|---|
| Amqp.DeadLetterQueueName | MailSharp.Core/Services/RabbitMQService.cs:66-74 | the dead-letter queue's name is the queue's name followed by `_dead`, so it is never the queue itself |
| Amqp.DeclareSucceedsIff | MailSharp.Core/Services/RabbitMQService.cs:156-173 | a queue declaration succeeds exactly when the queue is new or was declared with the same durability and arguments; otherwise it fails with PRECONDITION_FAILED for that queue. On success the queue exists as declared with its messages kept, and no other queue or delivery changes |
| Amqp.DeclareIdempotent | MailSharp.Core/Services/RabbitMQService.cs:156-173 | declaring a queue a second time in the same way leaves the broker as the first declaration left it |
| Amqp.Declare | MailSharp.Core/Services/RabbitMQService.cs:156-173 | a refused declaration is PRECONDITION_FAILED for a queue that already exists. A successful one adds exactly the declared name to the queues and touches no delivery |
| Amqp.Route | MailSharp.Core/Services/RabbitMQService.cs:205-212 | a publish changes no delivery, no tag and no set of queue names |
| Amqp.RouteAppendsOnlyToTarget | MailSharp.Core/Services/RabbitMQService.cs:205-212 | a publish through the default exchange appends the message to the queue named by the routing key and to no other queue; a publish through any other exchange drops the message |
| Amqp.RejectRoutesToDeadLetterQueue | MailSharp.Core/Services/RabbitMQService.cs:66-71 | a delivery from a queue with the client's dead-letter arguments, rejected without requeue, is removed from the unacknowledged set and appended unchanged to `<queue>_dead`; no other queue changes |
| Amqp.RequeueRestoresFront | MailSharp.Core/Services/RabbitMQService.cs:314 | a delivery rejected or nacked with requeue is removed from the unacknowledged set and put back at the front of its queue |
| Amqp.Deliver | MailSharp.Core/Services/RabbitMQService.cs:319-324 | delivering the head of a queue keeps every unacknowledged delivery under a tag issued earlier |
| Amqp.Broker.QueueDeclare | MailSharp.Core/Services/RabbitMQService.cs:156-173 | logs one declaration; on success the broker is in the declared state, and on refusal it returns the error and the broker is unchanged |
| Amqp.Broker.BasicConsume | MailSharp.Core/Services/RabbitMQService.cs:319-324 | logs one consume; it fails with NOT_FOUND exactly when the queue does not exist, and the broker state does not change |
| Amqp.Broker.BasicPublish | MailSharp.Core/Services/RabbitMQService.cs:205-212 | logs one publish and routes the message |
| Amqp.Broker.BasicAck | MailSharp.Core/Services/RabbitMQService.cs:90 | logs one ack and settles the delivery |
| Amqp.Broker.BasicReject | MailSharp.Core/Services/RabbitMQService.cs:107 | logs one reject and settles the delivery with the given requeue flag |
| Amqp.Broker.BasicNack | MailSharp.Core/Services/RabbitMQService.cs:314 | logs one nack and settles the delivery with the given requeue flag |
| Amqp.Broker.Push | MailSharp.Core/Services/RabbitMQService.cs:78 | the broker hands the head of the queue to its consumer without any method from the client |
| RetryPolicy.ToInt32 | MailSharp.Core/Services/RabbitMQService.cs:99 | Convert.ToInt32 of a header value: an integer converts exactly when it fits in 32 bits, and then to itself. A boolean converts to 1 exactly when it is true and to 0 otherwise. The void value converts to 0, and a byte string or any other value does not convert |
| RetryPolicy.StoredRetries | MailSharp.Core/Services/RabbitMQService.cs:96-100 | the count is 0 without headers or without `x-retries`. An integer `x-retries` is readable exactly when it fits in 32 bits, and a boolean reads as 1 or 0. Reading fails only when `x-retries` is present |
| RetryPolicy.Increment | MailSharp.Core/Services/RabbitMQService.cs:102 | `retryCount++` is the successor reduced modulo 2^32 into the int32 range, so the result is below its input exactly at `int.MaxValue` |
| RetryPolicy.RetrySettlement | MailSharp.Core/Services/RabbitMQService.cs:80-136 | the delivery is acked exactly when the handler succeeded or the payload was null. It stays unsettled exactly when the handler failed and the count cannot be read. Otherwise the incremented count is carried: dead-lettered when it is at least `maxRetries`, republished when below. It is never requeued |
| RetryPolicy.Republished | MailSharp.Core/Services/RabbitMQService.cs:112-122 | the copy has the original body, is persistent, carries the stamp's id and time, and has `x-retries` set to the new count |
| RetryPolicy.RetryCalls | MailSharp.Core/Services/RabbitMQService.cs:90-134 | the callback makes at most two calls, all on messages, and none exactly when it does not settle. When it acks, the ack of the delivery comes last. Every publish goes through the default exchange to the consumer's own queue with the delivery's body |
| RetryPolicy.RetryCountAdvancesByOne | MailSharp.Core/Services/RabbitMQService.cs:96-104 | for a failed delivery the count before the increment is 0 without headers or without `x-retries`. An unreadable count leaves the delivery unsettled. Otherwise the settlement carries exactly one more than the stored count, dead-lettering when it reaches `maxRetries` |
| RetryPolicy.SuccessAcksOnce | MailSharp.Core/Services/RabbitMQService.cs:82-90 | a delivery whose handler succeeded, or whose payload decoded to null, gives exactly one ack and nothing else |
| RetryPolicy.FailureRejectsOrRepublishes | MailSharp.Core/Services/RabbitMQService.cs:104-136 | a failed delivery whose new count reaches `maxRetries` gives exactly one reject without requeue. Otherwise it gives exactly one publish of its copy to the same queue through the default exchange, followed by one ack of the original |
| RetryPolicy.RepublishedKeepsContent | MailSharp.Core/Services/RabbitMQService.cs:112-122 | the republished copy has the original body and is persistent. It has every original header except `x-retries`, with the same values, plus `x-retries` set to the new count, which reads back as that count |
| RetryPolicy.PendingCarriesRetries | MailSharp.Core/Services/RabbitMQService.cs:112-122 | after k failed deliveries the waiting copy has the original body, is persistent, has the original headers with `x-retries = k`, and its count reads back as k |
| RetryPolicy.PendingStoredRetries | MailSharp.Core/Services/RabbitMQService.cs:96-102 | a message that starts without a count is read as having count k after k failed deliveries |
| RetryPolicy.FailedRoundRepublishes | MailSharp.Core/Services/RabbitMQService.cs:110-136 | a failed delivery below the limit takes the head of the working queue, whatever is queued behind it, and appends its republished copy after those messages. Nothing else changes but the tag counter |
| RetryPolicy.LastRoundDeadLetters | MailSharp.Core/Services/RabbitMQService.cs:104-109 | the failed delivery that reaches the limit removes the head of the working queue, leaves the messages behind it, and appends the head to `<queue>_dead` |
| RetryPolicy.SucceededRoundAcks | MailSharp.Core/Services/RabbitMQService.cs:82-90 | a successful delivery removes the head of the working queue, whatever is queued behind it, and changes nothing else |
| RetryPolicy.FailingPrefix | MailSharp.Core/Services/RabbitMQService.cs:78-138 | for a message alone in its working queue: while the count stays below the limit, after k failed deliveries the working queue holds exactly the k-th copy |
| RetryPolicy.IdleAfterDrained | MailSharp.Core/Services/RabbitMQService.cs:78 | once the working queue is empty, no further delivery happens |
| RetryPolicy.AlwaysFailingIsDeadLettered | MailSharp.Core/Services/RabbitMQService.cs:78-138 | a message alone in its working queue whose handler always fails is delivered exactly `max(1, maxRetries)` times. Afterwards the working queue is empty, `<queue>_dead` has gained the last retry copy of that message, with its original body and `x-retries` equal to the number of attempts before the last. No other queue appears, and the unacknowledged set is as it was before the run, so no new delivery is left unacknowledged |
| RetryPolicy.SucceedsOnAttempt | MailSharp.Core/Services/RabbitMQService.cs:78-138 | a message alone in its working queue that fails k-1 times and then succeeds, with k at most `max(1, maxRetries)`, is delivered exactly k times and acked. `<queue>_dead` is untouched, and the unacknowledged set is as it was before the run |
| RetryPolicy.PlainSettlement | MailSharp.Core/Services/RabbitMQService.cs:304-315 | there is no settlement exactly under automatic acknowledgement. Otherwise the delivery is acked exactly on success and requeued exactly on failure |
| RetryPolicy.PlainCalls | MailSharp.Core/Services/RabbitMQService.cs:304-315 | the plain callback makes at most one call: an ack of the delivery or a nack of it with requeue. It makes one exactly when the settlement is an ack or a requeue |
| RetryPolicy.PlainSettlesOnce | MailSharp.Core/Services/RabbitMQService.cs:304-315 | under manual acknowledgement the plain consumer settles with exactly one ack on success and exactly one nack with requeue on failure; under automatic acknowledgement it makes no call |
| RetryPolicy.FailedDeliveryIsRedelivered | MailSharp.Core/Services/RabbitMQService.cs:309-315 | a failed delivery under manual acknowledgement leaves the broker exactly as before, apart from the spent tag |
| RetryPolicy.FailingForeverKeepsMessage | MailSharp.Core/Services/RabbitMQService.cs:309-315 | under manual acknowledgement, any number of failed deliveries leave the queues and the unacknowledged set exactly as they started |
| RetryPolicy.SettledDeliveryIsRemoved | MailSharp.Core/Services/RabbitMQService.cs:304-307 | a successful delivery under manual acknowledgement, and every delivery under automatic acknowledgement, removes the head of its queue and nothing else |
| RabbitMQService.FactoryEndpointIgnoresTuning | MailSharp.Core/Services/RabbitMQService.cs:37-45 | two configurations give the same connection endpoint exactly when they agree on host, port, user, password, virtual host and client name; the timeout, heartbeat and recovery settings never reach the factory |
| RabbitMQService.ChannelOutcome | MailSharp.Core/Services/RabbitMQService.cs:27-31 | a channel is obtained exactly when there is an open connection or one can be created, and the channel then opens. A failed connection attempt is the error reported |
| RabbitMQService.EnsureTopology | MailSharp.Core/Services/RabbitMQService.cs:145-174 | a refusal is PRECONDITION_FAILED for the working queue or for `<name>_dead`. A success adds exactly those two names to the queues |
| RabbitMQService.TopologyReached | MailSharp.Core/Services/RabbitMQService.cs:145-174 | when both declarations succeed, the broker ends in the state they produce |
| RabbitMQService.EnsureTopologyEstablishesLayout | MailSharp.Core/Services/RabbitMQService.cs:145-174 | both declarations succeed exactly when each of the two queues is new or already declared in the same way. Afterwards the working queue dead-letters into `<name>_dead` and both queues have the requested durability, with no message moved and no delivery touched. A refusal is PRECONDITION_FAILED |
| RabbitMQService.EnsureTopologyIdempotent | MailSharp.Core/Services/RabbitMQService.cs:145-174 | ensuring the topology a second time changes nothing |
| RabbitMQService.PlainDeclareConflictsWithTopology | MailSharp.Core/Services/RabbitMQService.cs:279-286 | once the topology is in place, the plain declaration that ConsumeAsync and PublishSimpleAsync make for the same queue (durable, no arguments) is refused with PRECONDITION_FAILED |
| RabbitMQService.OnRetryDelivery | MailSharp.Core/Services/RabbitMQService.cs:78-138 | the retry callback makes exactly the calls of its settlement, in order, and the broker ends as those calls leave it. It reports the delivery unsettled exactly when reading `x-retries` throws |
| RabbitMQService.RetryRound | MailSharp.Core/Services/RabbitMQService.cs:78-138 | one push and callback is one step of the retry run that the lemmas above reason about, and the client logs exactly the calls of the pushed delivery's settlement |
| RabbitMQService.OnDelivery | MailSharp.Core/Services/RabbitMQService.cs:291-316 | the plain callback makes exactly the calls of its settlement, and the broker ends as those calls leave it |
| RabbitMQService.PlainRound | MailSharp.Core/Services/RabbitMQService.cs:291-316 | one push and callback is one step of the plain run, and the client logs exactly the calls of the pushed delivery's settlement |
| RabbitMQService.RabbitMQService.constructor | MailSharp.Core/Services/RabbitMQService.cs:11-16 | a new service has no connection, is not disposed, and has created no connection and opened no channel |
| RabbitMQService.RabbitMQService.GetConnection | MailSharp.Core/Services/RabbitMQService.cs:18-25 | an open connection is returned as it is and no connection is created. Otherwise a successful attempt creates and stores exactly one new open connection to the configured endpoint. A failed attempt is rethrown and leaves the field unassigned |
| RabbitMQService.RabbitMQService.InitializeConnection | MailSharp.Core/Services/RabbitMQService.cs:33-55 | on success stores exactly one new open connection to the configured endpoint; on failure rethrows and leaves the field as it was |
| RabbitMQService.RabbitMQService.CreateChannel | MailSharp.Core/Services/RabbitMQService.cs:27-31 | obtains a connection as GetConnection does, then opens one channel exactly when the channel outcome is a pass |
| RabbitMQService.RabbitMQService.EnsureQueueWithDeadLetter | MailSharp.Core/Services/RabbitMQService.cs:145-174 | obtains a channel, then declares the working queue with its dead-letter arguments and `<name>_dead` without arguments, both with the given durability, in that order. A refused first declaration ends the sequence, and a refusal closes the channel. If no channel is obtained the broker is untouched |
| RabbitMQService.RabbitMQService.CreateQueueWithRetry | MailSharp.Core/Services/RabbitMQService.cs:57-143 | declares both queues durable, in order, then registers the retry consumer with manual acknowledgement, with the channel left open. A refused declaration is the error and leaves the broker in the partial state. If no channel is obtained the broker is untouched |
| RabbitMQService.RabbitMQService.Publish | MailSharp.Core/Services/RabbitMQService.cs:177-228 | publishes exactly once, through the default exchange with the queue name as routing key, with `Persistent = durable` and the stamp's id and time. A serialisation or transport failure publishes nothing and is rethrown. The channel is closed on every path |
| RabbitMQService.RabbitMQService.PublishSimple | MailSharp.Core/Services/RabbitMQService.cs:230-271 | declares the queue durable without arguments, then publishes the payload without properties. A refused declaration, a serialisation failure or a transport failure is rethrown. The channel is closed on every path |
| RabbitMQService.RabbitMQService.Consume | MailSharp.Core/Services/RabbitMQService.cs:273-340 | declares the queue durable without arguments and registers the plain consumer with the given acknowledgement mode, with the channel left open. A refused declaration closes the channel and is rethrown |
| RabbitMQService.RabbitMQService.Dispose | MailSharp.Core/Services/RabbitMQService.cs:342-361 | a repeated call does nothing. The first call closes the connection only when it is open, then marks the service disposed. A close that throws is swallowed and leaves the service not disposed |
| EmailQueueWorker.OutcomeRecord | MailSharp.Worker/EmailQueueWorker.cs:31-53 | the record is sent exactly when the send passed; its error message is the send's message on failure and null otherwise; the addressing and content fields are the message's, and the creation time is the handler's clock reading |
| EmailQueueWorker.EmailMessageEntity.constructor | MailSharp.Worker/EmailQueueWorker.cs:31-40 | the new entity copies the message's fields and the clock, and is not yet sent and without an error |
| EmailQueueWorker.EmailMessageRepository.Add | MailSharp.Core/Repository/EmailMessageRepository.cs:12-16 | the entity's current state is offered once; it is stored exactly when the write succeeds, and a failed write is what the call ends with |
| EmailQueueWorker.HandleMessage | MailSharp.Worker/EmailQueueWorker.cs:25-56 | exactly one record is offered to the repository, after the send. It records how the send ended. The handler ends as the write ended, whatever the send did |
| EmailQueueWorker.WorkerAttempt | MailSharp.Worker/EmailQueueWorker.cs:23-58 | the try block of the worker's callback succeeds exactly for a null payload or a decoded message whose write passed. It fails with a decode error exactly for an undecodable body |
| EmailQueueWorker.OnWorkerDelivery | MailSharp.Worker/EmailQueueWorker.cs:23-58 | a decoded message is handled once and a null or undecodable one not at all; the delivery is then settled as the plain consumer settles it for how the write ended |
| EmailQueueWorker.WorkerRound | MailSharp.Worker/EmailQueueWorker.cs:23-58 | one delivery of `mail_sharp` to the worker is one step of the plain run. The client logs exactly the settlement of the pushed delivery. A decoded message adds its outcome record once to the repository's calls, and to its rows exactly when the write passes; a null or undecodable one leaves the repository unchanged |
| EmailQueueWorker.ExecuteAsync | MailSharp.Worker/EmailQueueWorker.cs:17-60 | the worker registers the plain consumer on `mail_sharp` with manual acknowledgement exactly when a channel is obtained and the plain declaration of `mail_sharp` is accepted. Without a channel the broker is untouched and the channel error is returned. A refused declaration logs that one declaration, leaves the broker as it was and returns PRECONDITION_FAILED for `mail_sharp`. Otherwise the declaration and the consume are logged in that order and the channel stays open. The connection is obtained as GetConnection obtains it |
| EmailQueueWorker.SendFailureStillAcks | MailSharp.Worker/EmailQueueWorker.cs:42-55 | a delivered message whose send fails but whose record is written is acked exactly once by the worker's callback, and the row written says it was not sent, with the send's message |
| EmailQueueWorker.WriteFailureRequeues | MailSharp.Worker/EmailQueueWorker.cs:55 | a message whose record cannot be written is nacked exactly once with requeue, whether or not its send succeeded |
| EmailQueueWorker.SettlementIgnoresSend | MailSharp.Worker/EmailQueueWorker.cs:42-55 | the worker requeues exactly the undecodable messages and those whose write failed, and acks every other |
| EmailQueueWorker.RepositoryOutageRedelivers | MailSharp.Worker/EmailQueueWorker.cs:55 | while the repository keeps failing, any number of deliveries of a mail message leave the broker exactly as it was, apart from spent tags (the plain consumer's `FailingForeverKeepsMessage` applied to the worker's attempts) |
| EmailQueueWorker.StartupDeclarationConflicts | MailSharp.Worker/Program.cs:55 | after the host's successful topology declaration for `mail_sharp`, the worker's plain declaration of `mail_sharp` is refused with PRECONDITION_FAILED |
| FileProcessor.Trim | MailSharp.Core/Services/FileProcessor.cs:38 | string.Trim() is TrimEnd after TrimStart. Its own contract says only that the trim is no longer than the value; TrimSpec and TrimCases state the rest |
| FileProcessor.TrimStartSpec | MailSharp.Core/Services/FileProcessor.cs:38 | the leading part dropped is white space, and what remains does not start with white space |
| FileProcessor.TrimEndSpec | MailSharp.Core/Services/FileProcessor.cs:38 | the trailing part dropped is white space, and what remains does not end with white space |
| FileProcessor.TrimSpec | MailSharp.Core/Services/FileProcessor.cs:38 | the trim is a slice of the value, everything before and after it is white space, and it neither starts nor ends with white space |
| FileProcessor.TrimIdempotent | MailSharp.Core/Services/FileProcessor.cs:83 | trimming twice is trimming once |
| FileProcessor.TrimCases | MailSharp.Core/Services/FileProcessor.cs:83 | a value trims to empty exactly when it is all white space, and a value without white space at its ends trims to itself |
| FileProcessor.Candidates | MailSharp.Core/Services/FileProcessor.cs:53 | the values kept are exactly the non-empty values containing `@`, and the result is no longer than the input |
| FileProcessor.Kept | MailSharp.Core/Services/FileProcessor.cs:38-42 | one value contributes nothing or exactly its trim |
| FileProcessor.Addresses | MailSharp.Core/Services/FileProcessor.cs:38-42 | every value appended by the trimming readers is non-empty and contains `@` |
| FileProcessor.AddressesAreTrimmedCandidates | MailSharp.Core/Services/FileProcessor.cs:83-84 | the appending loops compute the pipeline "trim every value, then keep the candidates" |
| FileProcessor.AddressesOfValues | MailSharp.Core/Services/FileProcessor.cs:82-84 | every appended address is the trim of some value, and the trim of every value that is a candidate is appended |
| FileProcessor.Distinct | MailSharp.Core/Services/FileProcessor.cs:46 | the result holds exactly the values of the input, without repetitions, and is no longer than it |
| FileProcessor.DistinctKeepsFirstOccurrenceOrder | MailSharp.Core/Services/FileProcessor.cs:46 | values come out in the order of their first occurrences |
| FileProcessor.DistinctOfDistinct | MailSharp.Core/Services/FileProcessor.cs:85 | a list without repetitions is its own Distinct |
| FileProcessor.OccursOnce | MailSharp.Core/Services/FileProcessor.cs:85 | a list without repetitions holds each of its values exactly once |
| FileProcessor.DistinctOccursOnce | MailSharp.Core/Services/FileProcessor.cs:85 | each value of the input occurs exactly once in its Distinct |
| FileProcessor.TextEmails | MailSharp.Core/Services/FileProcessor.cs:80-86 | the text result has no repetitions, and every address is non-empty and contains `@` |
| FileProcessor.TextEmailsSpec | MailSharp.Core/Services/FileProcessor.cs:80-86 | the text result has no repetitions; each address is a candidate and the trim of some line, and every line whose trim is a candidate gives an address that occurs exactly once |
| FileProcessor.JsonEmails | MailSharp.Core/Services/FileProcessor.cs:49-55 | a malformed document is a JSON error, and a null document gives no addresses |
| FileProcessor.JsonEmailsSpec | MailSharp.Core/Services/FileProcessor.cs:49-55 | the JSON result has no repetitions and holds exactly the non-null values that are candidates untrimmed |
| FileProcessor.CsvCandidates | MailSharp.Core/Services/FileProcessor.cs:34-44 | everything the CSV loops append is a candidate |
| FileProcessor.CsvEmails | MailSharp.Core/Services/FileProcessor.cs:27-47 | a successful CSV result consists of candidates without repetitions |
| FileProcessor.CsvLooksOnlyUnderHeader | MailSharp.Core/Services/FileProcessor.cs:36-38 | every CSV address is the trim of a field whose index is below the header's length |
| FileProcessor.CsvFieldIsAddress | MailSharp.Core/Services/FileProcessor.cs:34-43 | conversely, after a successful read the candidate trim of every field below the header's length has been appended |
| FileProcessor.CsvFieldIsEmail | MailSharp.Core/Services/FileProcessor.cs:27-47 | a successful CSV result contains the candidate trim of every field below the header's length |
| FileProcessor.CsvZeroWidth | MailSharp.Core/Services/FileProcessor.cs:36 | without a header record, the inner loop appends nothing for any records |
| FileProcessor.CsvFailureSticks | MailSharp.Core/Services/FileProcessor.cs:38 | a record with a missing field stops the whole read with that error |
| FileProcessor.ReadFields | MailSharp.Core/Services/FileProcessor.cs:36-43 | the inner loop over one record reads all the fields below the header's length exactly when the record has that many, and then appends exactly their candidate trims in order |
| FileProcessor.ProcessCsv | MailSharp.Core/Services/FileProcessor.cs:27-47 | the nested loops compute the CSV result: the MissingField error of the first short record, or the Distinct of the candidate trims of every record's fields below the header length |
| FileProcessor.ExcelCandidates | MailSharp.Core/Services/FileProcessor.cs:62-76 | everything the Excel loops append is a candidate |
| FileProcessor.ExcelAddressFromCell | MailSharp.Core/Services/FileProcessor.cs:62-76 | every Excel address is the trim of a non-null value of a dictionary row |
| FileProcessor.ExcelCellIsAddress | MailSharp.Core/Services/FileProcessor.cs:62-76 | every non-null value of a dictionary row whose trim is a candidate contributes that trim |
| FileProcessor.ExcelCandidatesSpec | MailSharp.Core/Services/FileProcessor.cs:62-76 | the Excel candidates are exactly the candidate trims of non-null values of dictionary rows; other rows contribute nothing |
| FileProcessor.ReadValues | MailSharp.Core/Services/FileProcessor.cs:66-73 | the inner loop over a dictionary row appends exactly the candidate trims of its values, a null read as empty |
| FileProcessor.ProcessExcel | MailSharp.Core/Services/FileProcessor.cs:57-78 | the nested loops compute the Distinct of the Excel candidates |
| FileProcessor.Extension | MailSharp.Core/Services/FileProcessor.cs:15 | a non-empty extension is a suffix of the path that starts with its only '.', has at least one character after it, and contains no '/' |
| FileProcessor.ExtensionOfName | MailSharp.Core/Services/FileProcessor.cs:15 | conversely, a '.' followed by a non-empty name without '.' or '/' starts the extension |
| FileProcessor.LowerAscii | MailSharp.Core/Services/FileProcessor.cs:15 | lower-casing keeps the length and leaves no letter A-Z. Every other character is kept, and each of A-Z becomes the letter of a-z at the same place in the alphabet |
| FileProcessor.LowerAsciiIdempotent | MailSharp.Core/Services/FileProcessor.cs:15 | lower-casing twice is lower-casing once |
| FileProcessor.ReadEmails | MailSharp.Core/Services/FileProcessor.cs:10-25 | a missing file is FileNotFound and an unsupported lower-cased extension is NotSupported. A successful result, on every path, consists of non-empty values containing `@`, without repetitions |
| FileProcessor.ReadEmailsDispatch | MailSharp.Core/Services/FileProcessor.cs:17-24 | `.csv`, `.json`, `.xlsx`/`.xls` and `.txt` each select their own reader |
| FileProcessor.ReadEmailsFromFile | MailSharp.Core/Services/FileProcessor.cs:10-25 | reading a file with the CSV and Excel loops gives the result of the dispatch |

## Left out

- Logging and the `Task.Delay` keep-alive loop of `ConsumeAsync` are not modelled. Neither is cancellation: a cancelled consumer leaves the loop through an exception that closes its channel.
- Concurrency is not modelled: delivery callbacks run one at a time, each to completion, in the order the broker pushes.
- The broker pushes one delivery at a time and waits for its settlement before it pushes the next (`RetryPolicy.RetryStep`, `RetryPolicy.PlainStep`), as with a prefetch of one. The source sets no `BasicQos`, so RabbitMQ may push every queued message before any is settled. Interleavings of pushes and settlements are not modelled.
- JSON serialisation and deserialisation and UTF-8 encoding are not modelled. A publish is given its serialised body or a serialisation failure, and a delivery callback is given how decoding ended.
- `Guid.NewGuid` and the clock are not modelled. The message id and Unix-seconds timestamp of a publish, and the handler's `DateTime.UtcNow`, are parameters.
- Broker calls made inside a delivery callback are assumed to succeed. Only the calls made inside the catch blocks would escape the callback if they failed: the reject, the republish and its ack (RabbitMQService.cs:107, 124-134) and the nack (:314). The success-path acks (:90, :306) sit inside their try blocks, so a failing one would send the delivery down the failure path. The model does not follow that path either.
- Only the default exchange exists in the broker model, and the `x-death` headers RabbitMQ adds to dead-lettered messages are not modelled.
- The `exclusive` and `autoDelete` flags are not modelled, because every declaration passes false for both.
- RabbitMQService.OnRetryDelivery: the copy's headers are built from a fresh map. The source writes `x-retries` into the delivered message's own header dictionary when it has one, and that in-place change is not modelled. It is not observable, because the original is acked right after.
- RabbitMQService.RabbitMQService.Dispose: `IConnection.Dispose` after the close is folded into the close.
- RabbitMQService.RabbitMQService.GetConnection: like the source, it does not look at `disposed`, so a disposed service reconnects on demand.
- The ghost `openChannels` count covers channels opened and closed by the service. Channels that the broker or connection closes later, such as a consumer's channel, are not tracked.
- RetryPolicy.ToInt32: floating-point and decimal header values, which Convert.ToInt32 rounds, are treated as values that do not convert, like strings (which reach the client as byte arrays).
- RetryPolicy.FailingPrefix: proved only for a message alone in its working queue, with one delivery at a time. Other messages queued with it would be delivered between its rounds. The count travels in the message, so its own rounds would keep the same counts, but that interleaving is not proved.
- RetryPolicy.AlwaysFailingIsDeadLettered: proved only for a message alone in its working queue, with one delivery at a time, for the same reason as `RetryPolicy.FailingPrefix`.
- RetryPolicy.SucceedsOnAttempt: proved only for a message alone in its working queue, with one delivery at a time, for the same reason as `RetryPolicy.FailingPrefix`.
- FileProcessor.IsWhiteSpace: Unicode general categories are written out as the fixed list of characters for which .NET's `char.IsWhiteSpace` holds.
- FileProcessor.LowerAscii: `ToLower` is modelled on ASCII letters only. Other characters are kept, which differs from .NET's culture-aware lower-casing for non-ASCII letters.
- FileProcessor.Extension: only '/' separates directories, as on Unix; Windows separators and invalid-path-character checks are not modelled.
- FileProcessor.ProcessCsv: the header record is an input, as the CSV library yields it. The source never calls `ReadHeader`, and with that library the header record stays null unless it is read. The model then proves the empty result (`FileProcessor.CsvZeroWidth`).
- FileProcessor.ProcessCsv and FileProcessor.ProcessExcel: each inner loop is a method of its own (`ReadFields`, `ReadValues`) called from the outer loop. The loops and their order are as in the source.
- The entity's database `Id` and the Entity Framework persistence are not modelled. The repository is an append-only sink that stores the entity's state at the time of the write, or fails.
- The file system is a parameter: whether the file exists, and what each reader would yield for it.
