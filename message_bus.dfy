/** `DefaultMessageBus`: the publish side. Publishing never talks to a
    transport; it appends the message to the outbox repository under the
    transaction most recently attached to the bus. */
module MessageBus {
  import opened Wrappers
  import opened Messaging
  import opened Outbox

  /** The `ArgumentNullException`s the bus throws. */
  datatype BusError = NullRepository | NullMessage

  class DefaultMessageBus {
    const outboxRepository: OutboxRepository
    /** The current transaction; None until one is set (`_transaction` in `DefaultMessageBus` starts null). */
    var transaction: Option<Transaction>

    constructor (outboxRepository: OutboxRepository)
      ensures this.outboxRepository == outboxRepository
      ensures transaction == None
    {
      this.outboxRepository := outboxRepository;
      transaction := None;
    }

    /** The constructor with its null guard: a missing repository fails. */
    static method Create(outboxRepository: OutboxRepository?) returns (r: Result<DefaultMessageBus, BusError>)
      ensures outboxRepository == null <==> r == Failure(NullRepository)
      ensures r.Success? <==> outboxRepository != null
      ensures r.Success? ==> fresh(r.value)
      ensures r.Success? ==> r.value.outboxRepository == outboxRepository && r.value.transaction == None
    {
      if outboxRepository == null {
        return Failure(NullRepository);
      }
      var bus := new DefaultMessageBus(outboxRepository);
      return Success(bus);
    }

    /** `PublishAsync`: a null message fails and appends nothing; otherwise
        exactly one entry, carrying the current transaction, is appended. */
    method PublishAsync(message: Option<Message>) returns (r: Outcome<BusError>)
      modifies outboxRepository
      ensures r == (if message.None? then Fail(NullMessage) else Pass)
      ensures message.None? ==> outboxRepository.entries == old(outboxRepository.entries)
      ensures message.Some? ==>
        outboxRepository.entries == old(outboxRepository.entries) + [OutboxEntry(message.value, transaction)]
      ensures transaction == old(transaction)
    {
      if message.None? {
        return Fail(NullMessage);
      }
      PublishAsyncCore(message.value);
      return Pass;
    }

    /** `PublishAsyncCore`: the append itself. */
    method PublishAsyncCore(message: Message)
      modifies outboxRepository
      ensures outboxRepository.entries == old(outboxRepository.entries) + [OutboxEntry(message, transaction)]
      ensures transaction == old(transaction)
    {
      outboxRepository.AppendAsync(message, transaction);
    }

    /** `SetTransaction`: overwrites the current transaction (None clears it). */
    method SetTransaction(transaction: Option<Transaction>)
      modifies this`transaction
      ensures this.transaction == transaction
    {
      this.transaction := transaction;
    }
  }

  /** On any bus: `first` is published, the transaction is switched to `t`,
      a null message is published, then `second`. The log grows by exactly
      two entries, in call order: `first` under the transaction held before,
      `second` under `t`; the null message leaves no entry. */
  method PublishAcrossSetTransaction(bus: DefaultMessageBus, first: Message, second: Message, t: Option<Transaction>)
    modifies bus, bus.outboxRepository
    ensures bus.transaction == t
    ensures bus.outboxRepository.entries ==
      old(bus.outboxRepository.entries) + [OutboxEntry(first, old(bus.transaction)), OutboxEntry(second, t)]
  {
    var r := bus.PublishAsync(Some(first));
    bus.SetTransaction(t);
    r := bus.PublishAsync(None);
    r := bus.PublishAsync(Some(second));
  }

  /** Before any `SetTransaction`, a publish on a fresh bus carries no transaction. */
  method FreshBusPublishesWithoutTransaction(repository: OutboxRepository, message: Message)
    returns (bus: DefaultMessageBus)
    modifies repository
    ensures bus.outboxRepository == repository && bus.transaction == None
    ensures repository.entries == old(repository.entries) + [OutboxEntry(message, None)]
  {
    bus := new DefaultMessageBus(repository);
    var r := bus.PublishAsync(Some(message));
  }
}
