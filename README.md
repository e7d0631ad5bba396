# OpenSleigh saga bookkeeping, outbox publishing and transport decision rules, in Dafny

OpenSleigh is a saga-orchestration runtime. Incoming messages advance a
saga's state. Messages a saga emits are first written to an outbox in
durable storage, and only later sent to a transport. This project models four
pieces of it and proves their properties:

- **`Sagas.SagaState`** (`saga_state.dfy`): the per-saga record.
  - Its `Id` is a `const`, so no operation can change it after construction.
  - The completion flag only ever becomes true.
  - It keeps the set of processed message ids, which makes delivery idempotent.
  - It keeps an ordered in-memory outbox, which is flushed to the outbox repository in order.
- **`MessageBus.DefaultMessageBus`** (`message_bus.dfy`): the publish side.
  - Publishing appends `(message, current transaction)` to the outbox repository.
  - `SetTransaction` replaces the current transaction.
- **`RabbitParser.MessageParser`** (`message_parser.dfy`): decoding of an inbound RabbitMQ delivery.
  - It runs a chain of checks: properties, headers, the message-type header, type resolution, and the decoded object being a message.
  - The result is `Result<Message, ParseError>`.
- **`KafkaConsumer`** (`kafka_subscriber.dfy`): the Kafka consume loop.
  - `ConsumeMessageAsync` classifies one consume outcome as continue, stop or an escaping exception.
  - `ConsumeMessages` is a `while` loop over a finite list of rounds. It is proved equal to the reference function `Run`.
  - The class `KafkaSubscriber` holds the start, stop and dispose lifecycle fields.

Shared pieces:
- `wrappers.dfy` defines `Option`, `Result` and `Outcome`.
- `messaging.dfy` defines `Guid` and `Message`.
- `outbox.dfy` defines the outbox repository. It is a class whose ghost field `entries` logs every append, in call order.

Modelling conventions:
- A C# null argument is an `Option` whose `None` stands for null. The exception the source throws for it is a `Fail`/`Failure` value.
- The foreign collaborators of the parser are arrow-typed fields of the `MessageParser` datatype:
  - `Encoding.UTF8.GetString`;
  - `ITypeResolver.Resolve`;
  - `ITransportSerializer.Deserialize`.
- The value of `HeaderNames.MessageType` does not appear in the modelled files, so the header key is a field of the parser too.
- Check order is stated as independence: replacing the resolver or decoder does not change the result.
- `PersistOutboxAsync` calls the two-argument `AppendAsync(message, cancellationToken)`. Its entries are recorded with no transaction (`None`). The repository interface is not part of this model; this reading is an assumption.
- Kafka's cancellation token and task machinery are booleans in the environment's answers:
  - whether cancellation is requested at the loop test;
  - whether it is observed right after `Consume` returns;
  - whether the back-off delay in the unknown-topic handler is cancelled;
  - whether the loop's own `Task.Delay` is cancelled.
- An exception the handler raises is classified by the same catch clauses as one `Consume` raises, because both calls sit in the same `try`.

In two places the model keeps more detail than a plain continue/stop answer:
- A cancelled back-off delay inside the unknown-topic catch clause throws out of the step, and out of the loop. The verdict `Throws` and the exit `StepThrew` model this.
- A cancelled `Task.Delay` between steps ends the loop with an exception. The exit `DelayCancelled` models this.

## Model

| member | source | states |
|---|---|---|
| Sagas.SagaState.constructor | src/OpenSleigh.Core/SagaState.cs:17-22 | the new state has the given `Id`, is not completed, has no processed ids and an empty outbox |
| Sagas.SagaState.SetProcessedMessagesIds | src/OpenSleigh.Core/SagaState.cs:28-32 | a null collection fails and leaves the set as it was; otherwise the set becomes exactly the distinct ids of the collection |
| Sagas.Distinct | src/OpenSleigh.Core/SagaState.cs:31 | an id is in the de-duplicated set if and only if it occurs in the collection |
| Sagas.DistinctSize | src/OpenSleigh.Core/SagaState.cs:31 | de-duplication never has more elements than the collection, and has as many exactly when the collection has no repeated id |
| Sagas.SagaState.SetAsProcessed | src/OpenSleigh.Core/SagaState.cs:37-47 | a null message or one whose correlation id is not the saga's `Id` fails and leaves the set unchanged; it succeeds exactly for a matching message, which adds the message id and nothing else, after which `CheckWasProcessed` answers true |
| Sagas.SagaState.CheckWasProcessed | src/OpenSleigh.Core/SagaState.cs:49-54 | a null message fails; otherwise the answer is true if and only if the message id is in the processed set; as a function it changes no field |
| Sagas.SagaState.MarkAsCompleted | src/OpenSleigh.Core/SagaState.cs:56 | afterwards the saga is completed; only the flag is in its frame, so the processed set and outbox are untouched |
| Sagas.SagaState.AddToOutbox | src/OpenSleigh.Core/SagaState.cs:58-63 | a null message fails and leaves the outbox; otherwise the outbox is the old outbox followed by the message; the processed set is outside its frame |
| Sagas.SagaState.PersistOutboxAsync | src/OpenSleigh.Core/SagaState.cs:65-70 | the repository log grows by exactly the buffered messages, in outbox order, each with no transaction, and the outbox is then empty |
| Sagas.RedeliveryIsIdempotent | src/OpenSleigh.Core/SagaState.cs:37-47 | on any state, marking a matching message processed twice leaves the same set as marking it once: the old set plus the message id |
| Sagas.ForeignMessageIsRefused | src/OpenSleigh.Core/SagaState.cs:43-44 | on any state, a message correlated to another saga is refused, the processed set is unchanged, and it is seen as processed exactly when it already was |
| Sagas.ProcessThenRedeliver | src/OpenSleigh.Core/SagaState.cs:37-70 | one step that buffers an outbound message, completes and marks the inbound message ends completed, with only the inbound id processed, the outbound message persisted once and the outbox empty, and a re-delivery is recognised as processed |
| Outbox.OutboxRepository.AppendAsync | src/OpenSleigh.Core/IMessageBus.cs:34 | one append adds one entry, with its message and transaction, after all earlier ones |
| MessageBus.DefaultMessageBus.constructor | src/OpenSleigh.Core/IMessageBus.cs:19-22 | the bus holds the given repository and no transaction |
| MessageBus.DefaultMessageBus.Create | src/OpenSleigh.Core/IMessageBus.cs:19-22 | a missing repository fails, and only then; otherwise a fresh bus over that repository with no transaction |
| MessageBus.DefaultMessageBus.PublishAsync | src/OpenSleigh.Core/IMessageBus.cs:24-30 | a null message fails and appends nothing; otherwise exactly one entry `(message, current transaction)` is appended; the transaction is unchanged |
| MessageBus.DefaultMessageBus.PublishAsyncCore | src/OpenSleigh.Core/IMessageBus.cs:32-34 | appends exactly `(message, current transaction)` to the repository log |
| MessageBus.DefaultMessageBus.SetTransaction | src/OpenSleigh.Core/IMessageBus.cs:36 | the stored transaction becomes the given one, null included |
| MessageBus.PublishAcrossSetTransaction | src/OpenSleigh.Core/IMessageBus.cs:24-36 | on any bus, a publish carries the transaction held at that moment, one after `SetTransaction(t)` carries `t`, a null publish leaves no entry, entries appear in call order, and the transaction afterwards is `t` |
| MessageBus.FreshBusPublishesWithoutTransaction | src/OpenSleigh.Core/IMessageBus.cs:17-34 | before any `SetTransaction`, a publish on a newly built bus appends its message with no transaction |
| RabbitParser.NewMessageParser | src/OpenSleigh.Transport.RabbitMQ/MessageParser.cs:15-19 | a null serializer, then a null type resolver, fails; otherwise the parser holds both |
| RabbitParser.MessageParser.MessageTypeName | src/OpenSleigh.Transport.RabbitMQ/MessageParser.cs:23-33 | missing properties, then missing headers, then a message-type header that is absent or not a byte array each give their own error, each exactly in its case; otherwise the type name is the UTF-8 text of the header bytes |
| RabbitParser.MessageParser.Resolve | src/OpenSleigh.Transport.RabbitMQ/MessageParser.cs:21-43 | a header error is passed on; an unresolved type name gives "unable to detect message type"; a decoded non-message gives "wrong type"; it succeeds exactly when every check passes, with the decoder's message for the body and the resolved type |
| RabbitParser.HeaderFailureIgnoresResolver | src/OpenSleigh.Transport.RabbitMQ/MessageParser.cs:23-35 | when a header check fails, the result is an error that does not depend on the type resolver or the decoder |
| RabbitParser.UnresolvedTypeIgnoresDecoder | src/OpenSleigh.Transport.RabbitMQ/MessageParser.cs:35-39 | when the type name does not resolve, the result is an error that does not depend on the decoder |
| RabbitParser.WellFormedDeliveryDecodes | src/OpenSleigh.Transport.RabbitMQ/MessageParser.cs:28-42 | a delivery with a byte-array type header whose name resolves and whose body decodes to a message yields that message |
| KafkaConsumer.DefaultConfigIs250Ms | src/OpenSleigh.Transport.Kafka/KafkaSubscriber.cs:12 | the constant `DefaultConfig` has both the consume delay and the consume timeout at 250 ms, and `Consume` is given 250 |
| KafkaConsumer.CanProcess | src/OpenSleigh.Transport.Kafka/KafkaSubscriber.cs:86 | a consume result is processable exactly when it is present and not a partition end |
| KafkaConsumer.WholeMilliseconds | src/OpenSleigh.Transport.Kafka/KafkaSubscriber.cs:80 | the timeout passed to `Consume` is the span's milliseconds truncated toward zero |
| KafkaConsumer.EffectiveConfig | src/OpenSleigh.Transport.Kafka/KafkaSubscriber.cs:44 | a supplied config is used as is; with none, both the consume delay and the consume timeout are 250 ms, and `Consume` is given 250 |
| KafkaConsumer.Caught | src/OpenSleigh.Transport.Kafka/KafkaSubscriber.cs:92-126 | only a consume error coded unknown-topic-or-partition continues the loop (or throws, if its back-off delay is cancelled); disposed, task-cancelled, operation-cancelled and every other exception stop it |
| KafkaConsumer.ConsumeMessageAsync | src/OpenSleigh.Transport.Kafka/KafkaSubscriber.cs:76-127 | cancellation seen after `Consume` stops the step; a null or partition-end result continues without the handler; a handled record continues; an exception from `Consume` or the handler is classified by the catch clauses; an exception escapes only from the unknown-topic back-off |
| KafkaConsumer.Run | src/OpenSleigh.Transport.Kafka/KafkaSubscriber.cs:61-69 | the reference run of the loop: no step is taken exactly when there is no round or cancellation is requested at the first test; otherwise one step, then either the exit of that round or the run of the remaining rounds |
| KafkaConsumer.ConsumeMessages | src/OpenSleigh.Transport.Kafka/KafkaSubscriber.cs:57-70 | the loop's steps, the records handed to the handler and the exit reason are those of the reference run `Run` |
| KafkaConsumer.RunBounds | src/OpenSleigh.Transport.Kafka/KafkaSubscriber.cs:61-69 | handler calls never exceed the steps taken, and steps never exceed the rounds available |
| KafkaConsumer.RunHandles | src/OpenSleigh.Transport.Kafka/KafkaSubscriber.cs:61-69 | the handler receives, in order, the record of each step taken in which `Consume` returned a processable record and no cancellation was seen after it |
| KafkaConsumer.RunStopsAtFirstRefusal | src/OpenSleigh.Transport.Kafka/KafkaSubscriber.cs:61-69 | every step before the last went on; no step was taken after a requested cancellation; the exit names what ended the loop (cancellation at the test, a false step, an escaping exception, a cancelled delay); the loop is still running only if every round went on |
| KafkaConsumer.KafkaSubscriber.constructor | src/OpenSleigh.Transport.Kafka/KafkaSubscriber.cs:27-45 | the subscriber runs with the supplied config or the default, holds an open consumer and has not started |
| KafkaConsumer.KafkaSubscriber.StartAsync | src/OpenSleigh.Transport.Kafka/KafkaSubscriber.cs:48-55 | a stopping token source, already cancelled iff the caller's token is at start, and the consumer task marked started; later cancellation of the caller's token is not tracked |
| KafkaConsumer.KafkaSubscriber.StopAsync | src/OpenSleigh.Transport.Kafka/KafkaSubscriber.cs:129-144 | before any start it returns without effect; once a consumer task exists a token source exists too, so the cancel never meets null; after `Dispose` it fails on the null consumer without cancelling; otherwise the consumer is closed and the loop's token cancelled |
| KafkaConsumer.KafkaSubscriber.Dispose | src/OpenSleigh.Transport.Kafka/KafkaSubscriber.cs:146-151 | the token source, if any, is cancelled and the consumer is dropped |

## Left out

- Async/await: every awaited call is one sequential step. Cancellation tokens of individual calls are ignored, except in the Kafka loop, where they are booleans of the environment.
- The outbox repository and `ITransaction` are not part of this model. The repository is a ghost log; its storage, failures and transaction atomicity are not modelled.
- Sagas.SagaState.PersistOutboxAsync: a repository append that throws midway is not modelled. In the source that would leave the outbox uncleared.
- `SagaState` is a C# record. Its value equality and its `with` copies are not modelled. Those copies share the outbox list and the processed-id set with the original.
- `SagaState`'s `init` accessor on `Id` lets an object initialiser set `Id`. Here `Id` is fixed by the constructor.
- JSON serialisation attributes have no behaviour to model.
- RabbitParser.MessageParser.Resolve: UTF-8 decoding, `ITypeResolver.Resolve` and `ITransportSerializer.Deserialize` are foreign code, kept as uninterpreted function fields. Exceptions raised inside them are not modelled.
- KafkaConsumer.KafkaSubscriber.constructor: the null guards on the builder factory, queue-reference factory, handler and logger are not modelled. Building the consumer and the topic reference is broker set-up.
- KafkaConsumer.KafkaSubscriber.StopAsync: `Close` is taken to succeed on an open or closed consumer. The wait on `Task.WhenAny` has no state effect and is not modelled.
- Kafka broker I/O is not modelled: `Subscribe`, `Consume`, `Close` and `Dispose` on the real consumer, the handler's own effect, `Task.Run`, `Task.Delay` and the linked token source. Logging is not modelled either.
- KafkaConsumer.WholeMilliseconds: a `TotalMilliseconds` value outside the 32-bit `int` range is not modelled. The cast's behaviour there is not modelled either.
- The RabbitMQ test fixture and the `RabbitSubscriber` tests exercise code that is not part of this model. So does the dependency-injection registration. The retry-on-lock-conflict logic of `RabbitSubscriber` is therefore not modelled.
