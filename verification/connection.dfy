/**
 * The connection records that the tracker hands out. Only the fields and the
 * one mutating operation that the modelled handlers use are represented; the
 * tracker's registry and its id factory are not part of this model.
 */
module Connection {
  import opened Types
  import opened Config

  /** A process-unique connection identifier (a `u64` in the source). */
  datatype ConnectionID = ConnectionID(value: nat)

  /** A tracked connection, as the tracker's snapshot reports it. */
  datatype ConnectionInfo = ConnectionInfo(
    connectionId: ConnectionID,
    creationTime: SystemTime,
    serverProtocol: ServerProtocol,
    serverSocketType: ServerSocketType,
    numRequests: nat)

  /** The handle a serving task holds on its tracked connection. */
  class ConnectionGuard {
    const id: ConnectionID
    const serverProtocol: ServerProtocol
    const serverSocketType: ServerSocketType
    var numRequests: nat

    constructor (id: ConnectionID, serverProtocol: ServerProtocol, serverSocketType: ServerSocketType)
      ensures this.id == id && this.serverProtocol == serverProtocol
      ensures this.serverSocketType == serverSocketType && numRequests == 0
    {
      this.id := id;
      this.serverProtocol := serverProtocol;
      this.serverSocketType := serverSocketType;
      numRequests := 0;
    }

    /** Counts one more request served on this connection. */
    method IncrementNumRequests()
      modifies this
      ensures numRequests == old(numRequests) + 1
    {
      numRequests := numRequests + 1;
    }
  }
}
