// The boundary between the two connection roles and the shared netbase engine
// (netbase.h / netbase.cpp and netpacket are not part of this model).
// Everything the roles ask of the engine or of the operating system is either
// an oracle value handed to the operation, or an entry in the role's call log.

module Engine {

  /** `(int)INVALID_SOCKET`: -1 on every platform once cast to int. */
  const INVALID_SOCKET: int := -1

  /** `SOCKET_ERROR`, the failure result of connect, select and the engine. */
  const SOCKET_ERROR: int := -1

  /** The C `short` the roles use for ports, message ids, lengths and versions. */
  type Short = x: int | -0x8000 <= x < 0x8000

  /** Reserved id of the disconnect notice; its value is defined in netbase.h. */
  const NET_DISCONNECT_ID: Short

  /** Protocol version tag carried by the disconnect notice; defined in netbase.h. */
  const NET_CB_VERSION: Short

  /** What a role hands to `netpacket::create`: target socket, id, sequence
      number, declared length, payload bytes and version. */
  datatype Packet = Packet(target: int, id: Short, sequence: int, length: Short,
                           payload: seq<bv8>, version: Short)

  /** One call a role makes into the operating system or the engine, in order.
      `readyAtCall` is the role's `ready` flag at the moment the engine's
      `closeSocket` runs. */
  datatype Call =
    | Socket(sd: int)
    | Close(sd: int, readyAtCall: bool)
    | Send(pkt: Packet)
    | AddCallback

  /** The oracle answer of `netbase::closeSocket(sd)`: its return value, and
      whether it took `sd` out of the shared connection set. */
  datatype CloseReply = CloseReply(rv: int, unregisters: bool)

  /** The connection set after the engine closed `sd`: nothing is added and
      nothing but `sd` can leave. */
  function Unregister(conSet: set<int>, sd: int, reply: CloseReply): (r: set<int>)
    ensures r <= conSet
    ensures conSet - {sd} <= r
    ensures sd !in conSet ==> r == conSet
  {
    if reply.unregisters then conSet - {sd} else conSet
  }

  /** Every sequence number in the log's sends is at most `last`, and the sends
      carry strictly increasing sequence numbers in the order they were made. */
  ghost predicate SequencesIncrease(trace: seq<Call>, last: int)
  {
    && (forall i :: 0 <= i < |trace| && trace[i].Send? ==> trace[i].pkt.sequence <= last)
    && (forall i, j :: 0 <= i < j < |trace| && trace[i].Send? && trace[j].Send? ==>
          trace[i].pkt.sequence < trace[j].pkt.sequence)
  }
}
