/**
 * The socket server as an append-only log of what it is asked to send.
 * Delivery, acknowledgement and network failure are outside the model.
 */
module Transport {
  import opened RoomTypes

  type SocketId = nat

  /** Messages sent to one connection only. */
  datatype Reply =
    | AuthSuccess(username: string, state: RoomState)
    | AuthFail

  datatype Packet =
    | ToRoom(room: string, event: Outbound)       // io.to(room).emit(...)
    | ToSocket(socket: SocketId, reply: Reply)    // socket.emit(...)
    | JoinGroup(socket: SocketId, room: string)   // socket.join(room)
    | Disconnect(socket: SocketId)                // socket.disconnect(true)

  /** The words a room sends to `room`, in order, as packets for that group. */
  function Tagged(room: string, events: seq<Outbound>): (ps: seq<Packet>)
    ensures |ps| == |events|
    ensures forall i :: 0 <= i < |events| ==> ps[i] == ToRoom(room, events[i])
  {
    if events == [] then [] else [ToRoom(room, events[0])] + Tagged(room, events[1..])
  }

  class Io {
    var log: seq<Packet>

    constructor ()
      ensures log == []
    {
      log := [];
    }
  }
}
