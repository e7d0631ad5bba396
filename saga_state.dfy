/** `SagaState`: the per-saga bookkeeping of one workflow instance: its
    correlation id, the completion flag, the ids of the messages already
    applied, and the transient outbox of messages the current processing
    step has emitted. */
module Sagas {
  import opened Wrappers
  import opened Messaging
  import opened Outbox

  /** The `ArgumentNullException` and `ArgumentException` that `SagaState` throws. */
  datatype SagaError =
    | NullMessage          // a null message
    | NullCollection       // a null collection assigned to ProcessedMessagesIds
    | InvalidCorrelationId // message.CorrelationId differs from the saga's Id

  /** The distinct elements of a collection, as a `HashSet` built from it holds them. */
  function Distinct(ids: seq<Guid>): (r: set<Guid>)
    ensures forall x :: x in r <==> x in ids
  {
    if ids == [] then {} else {ids[0]} + Distinct(ids[1..])
  }

  /** De-duplication never adds elements, and keeps them all exactly when the
      collection has no repeats. */
  lemma {:induction false} DistinctSize(ids: seq<Guid>)
    ensures |Distinct(ids)| <= |ids|
    ensures |Distinct(ids)| == |ids| <==> NoRepeats(ids)
  {
    if ids != [] {
      DistinctSize(ids[1..]);
      var rest := Distinct(ids[1..]);
      if ids[0] in rest {
        assert Distinct(ids) == rest;
        var k :| 0 <= k < |ids[1..]| && ids[1..][k] == ids[0];
        assert ids[k + 1] == ids[0];
      } else {
        assert |Distinct(ids)| == |rest| + 1;
        NoRepeatsCons(ids);
      }
    }
  }

  /** No element of `ids` occurs twice. */
  predicate NoRepeats(ids: seq<Guid>)
  {
    forall i, j :: 0 <= i < j < |ids| ==> ids[i] != ids[j]
  }

  lemma NoRepeatsCons(ids: seq<Guid>)
    requires ids != [] && ids[0] !in ids[1..]
    ensures NoRepeats(ids) <==> NoRepeats(ids[1..])
  {
  }

  class SagaState {
    /** The correlation id: a `const`, so no operation can change it. */
    const id: Guid
    var isCompleted: bool
    var processedMessages: set<Guid>
    var outbox: seq<Message>

    constructor (id: Guid)
      ensures this.id == id
      ensures !isCompleted && processedMessages == {} && outbox == []
    {
      this.id := id;
      isCompleted := false;
      processedMessages := {};
      outbox := [];
    }

    /** The private `ProcessedMessagesIds` setter (used when a stored state is
        read back): replaces the set with the distinct ids of `value`. */
    method SetProcessedMessagesIds(value: Option<seq<Guid>>) returns (r: Outcome<SagaError>)
      modifies this`processedMessages
      ensures r == (if value.None? then Fail(NullCollection) else Pass)
      ensures value.None? ==> processedMessages == old(processedMessages)
      ensures value.Some? ==> processedMessages == Distinct(value.value)
    {
      if value.None? {
        return Fail(NullCollection);
      }
      processedMessages := Distinct(value.value);
      return Pass;
    }

    /** `SetAsProcessed`: records the message id, provided the message belongs
        to this saga; otherwise fails and records nothing. */
    method SetAsProcessed(message: Option<Message>) returns (r: Outcome<SagaError>)
      modifies this`processedMessages
      ensures message.None? ==> r == Fail(NullMessage)
      ensures message.Some? && message.value.correlationId != id ==> r == Fail(InvalidCorrelationId)
      ensures r.Pass? <==> message.Some? && message.value.correlationId == id
      ensures r.Fail? ==> processedMessages == old(processedMessages)
      ensures r.Pass? ==> processedMessages == old(processedMessages) + {message.value.id}
      ensures r.Pass? ==> CheckWasProcessed(message) == Success(true)
    {
      if message.None? {
        return Fail(NullMessage);
      }
      if id != message.value.correlationId {
        return Fail(InvalidCorrelationId);
      }
      processedMessages := processedMessages + {message.value.id};
      return Pass;
    }

    /** `CheckWasProcessed`: whether the message's id has been recorded. */
    function CheckWasProcessed(message: Option<Message>): (r: Result<bool, SagaError>)
      reads this
      ensures message.None? <==> r == Failure(NullMessage)
      ensures message.Some? ==> r.Success? && (r.value <==> message.value.id in processedMessages)
    {
      if message.None? then Failure(NullMessage)
      else Success(message.value.id in processedMessages)
    }

    /** `MarkAsCompleted`: the flag only ever becomes true. */
    method MarkAsCompleted()
      modifies this`isCompleted
      ensures isCompleted
    {
      isCompleted := true;
    }

    /** `AddToOutbox`: appends the message after everything already buffered. */
    method AddToOutbox(message: Option<Message>) returns (r: Outcome<SagaError>)
      modifies this`outbox
      ensures r == (if message.None? then Fail(NullMessage) else Pass)
      ensures message.None? ==> outbox == old(outbox)
      ensures message.Some? ==> outbox == old(outbox) + [message.value]
    {
      if message.None? {
        return Fail(NullMessage);
      }
      outbox := outbox + [message.value];
      return Pass;
    }

    /** `PersistOutboxAsync`: hands every buffered message, in order, to the
        repository, then empties the buffer. */
    method PersistOutboxAsync(outboxRepository: OutboxRepository)
      modifies this`outbox, outboxRepository
      ensures outboxRepository.entries == old(outboxRepository.entries) + Untransacted(old(outbox))
      ensures outbox == []
    {
      var pending := outbox;
      for i := 0 to |pending|
        invariant outboxRepository.entries == old(outboxRepository.entries) + Untransacted(pending[..i])
      {
        outboxRepository.AppendAsync(pending[i], None);
        assert Untransacted(pending[..i + 1]) == Untransacted(pending[..i]) + [OutboxEntry(pending[i], None)];
      }
      assert pending[..|pending|] == pending;
      outbox := [];
    }
  }

  /** Re-delivery: marking a matching message twice leaves, on any state, the
      set that marking it once gave: the old set and the message id. */
  method RedeliveryIsIdempotent(state: SagaState, message: Message) returns (once: set<Guid>, twice: set<Guid>)
    requires message.correlationId == state.id
    modifies state
    ensures once == twice == old(state.processedMessages) + {message.id}
    ensures state.processedMessages == twice
  {
    var r := state.SetAsProcessed(Some(message));
    once := state.processedMessages;
    r := state.SetAsProcessed(Some(message));
    twice := state.processedMessages;
  }

  /** A message from another saga is refused on any state, leaves the set as
      it was, and is seen as processed exactly when it already was. */
  method ForeignMessageIsRefused(state: SagaState, message: Message)
    returns (r: Outcome<SagaError>, seen: Result<bool, SagaError>)
    requires message.correlationId != state.id
    modifies state
    ensures r == Fail(InvalidCorrelationId)
    ensures state.processedMessages == old(state.processedMessages)
    ensures seen == Success(message.id in old(state.processedMessages))
  {
    r := state.SetAsProcessed(Some(message));
    seen := state.CheckWasProcessed(Some(message));
  }

  /** One processing step of a saga with id `sagaId` on message `inbound`,
      emitting `outbound` and completing the saga; then a re-delivery of
      `inbound`. The state ends completed, with exactly the inbound id
      recorded, the outbound message persisted once, and the re-delivery
      recognised as already processed. */
  method ProcessThenRedeliver(sagaId: Guid, inbound: Message, outbound: Message)
    returns (completed: bool, processed: set<Guid>, buffered: seq<Message>,
             redelivered: Result<bool, SagaError>, ghost persisted: seq<OutboxEntry>)
    requires inbound.correlationId == sagaId
    ensures completed && processed == {inbound.id} && buffered == []
    ensures redelivered == Success(true)
    ensures persisted == [OutboxEntry(outbound, None)]
  {
    var state := new SagaState(sagaId);
    var repository := new OutboxRepository();
    var r := state.AddToOutbox(Some(outbound));
    state.MarkAsCompleted();
    r := state.SetAsProcessed(Some(inbound));
    state.PersistOutboxAsync(repository);
    redelivered := state.CheckWasProcessed(Some(inbound));
    completed, processed, buffered := state.isCompleted, state.processedMessages, state.outbox;
    persisted := repository.entries;
  }
}
