/** The outbox repository, as far as the saga state and the message bus use it.
    Durable storage is out of scope: the repository is a ghost log of what
    was handed to it, in call order. */
module Outbox {
  import opened Wrappers
  import opened Messaging

  /** An `ITransaction`: an opaque handle. Only its identity matters here. */
  datatype Transaction = Transaction(handle: nat)

  /** One append: the message and the transaction it was written under (None: none). */
  datatype OutboxEntry = OutboxEntry(message: Message, transaction: Option<Transaction>)

  class OutboxRepository {
    /** Every entry appended so far, oldest first. */
    ghost var entries: seq<OutboxEntry>

    constructor ()
      ensures entries == []
    {
      entries := [];
    }

    /** `AppendAsync(message, transaction)`: records one entry after all earlier ones. */
    method AppendAsync(message: Message, transaction: Option<Transaction>)
      modifies this
      ensures entries == old(entries) + [OutboxEntry(message, transaction)]
    {
      entries := entries + [OutboxEntry(message, transaction)];
    }
  }

  /** The entries that appending each of `messages`, in order and with no
      transaction, adds to the log. */
  function Untransacted(messages: seq<Message>): (r: seq<OutboxEntry>)
    ensures |r| == |messages|
    ensures forall i :: 0 <= i < |messages| ==> r[i] == OutboxEntry(messages[i], None)
  {
    seq(|messages|, i requires 0 <= i < |messages| => OutboxEntry(messages[i], None))
  }
}
