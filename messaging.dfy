/** The message identity shared by the saga state, the bus and the transports. */
module Messaging {

  /** A `System.Guid`: 128 bits, kept here as a bounded natural number. */
  type Guid = x: nat | x < 0x1_0000_0000_0000_0000_0000_0000_0000_0000

  /** An `IMessage`: its own unique id and the id of the saga it is correlated with. */
  datatype Message = Message(id: Guid, correlationId: Guid)
}
