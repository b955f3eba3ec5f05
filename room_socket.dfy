/**
 * The room registry and matchmaker of the socket server: the module-level
 * `rooms` map (insertion-ordered), `findRoom`, the room factory behind a
 * write-swallowing proxy, `recordRoom`, and the handshake, progress relay
 * and disconnect flow of one connection.
 */
module RoomSocket {
  import opened Wrappers
  import opened RoomTypes
  import opened Transport
  import opened RoomController

  /** What `jsonwebtoken.verify` made of the token: it threw, or returned a string or an object payload. */
  datatype Verified = Threw | StringPayload(text: string) | ObjectPayload(login: Option<string>)

  /**
   * The login an accepted handshake yields. A missing or empty token, a
   * verification that throws, a string payload and an object without `login`
   * all end in `authFail`.
   */
  function Login(token: Option<string>, verified: Verified): (r: Option<string>)
    ensures r.Some? <==> token.Some? && token.value != "" && verified.ObjectPayload? && verified.login.Some?
    ensures r.Some? ==> r.value == verified.login.value
  {
    if token.None? || token.value == "" then None
    else
      match verified
      case ObjectPayload(Some(u)) => Some(u)
      case _ => None
  }

  /** One accepted connection: its socket, the login it authenticated as, and the room it joined. */
  datatype Connection = Connection(socket: SocketId, username: string, room: Room)

  /** The test in `findRoom`: u already has a progress there, or the room has not started racing. */
  predicate Eligible(room: Room, u: string)
    reads room
  {
    u in room.state.progresses || !room.state.active
  }

  predicate Distinct(s: seq<string>) {
    forall i, j :: 0 <= i < j < |s| ==> s[i] != s[j]
  }

  /** `s` with `x` taken out, the others in their order (what `Map.delete` does to the insertion order). */
  function Without(s: seq<string>, x: string): (r: seq<string>)
    ensures forall y :: y in r <==> y in s && y != x
    ensures Distinct(s) ==> Distinct(r)
    ensures x !in s ==> r == s
  {
    if s == [] then []
    else if s[0] == x then Without(s[1..], x)
    else
      var rest := Without(s[1..], x);
      assert Distinct(s) ==> s[0] !in rest;
      assert x !in s ==> x !in s[1..];
      [s[0]] + rest
  }

  /**
   * Deleting the name at position k, which occurs nowhere else, leaves the
   * names before it and the names after it, each in their order.
   */
  lemma {:induction false} WithoutAt(s: seq<string>, k: nat)
    requires k < |s|
    requires forall i :: 0 <= i < |s| && i != k ==> s[i] != s[k]
    ensures Without(s, s[k]) == s[..k] + s[k + 1..]
  {
    var x := s[k];
    if k == 0 {
      assert x !in s[1..];
    } else {
      WithoutAt(s[1..], k - 1);
      assert s[1..][k - 1] == x;
      assert s[..k] == [s[0]] + s[1..][..k - 1];
      assert s[k + 1..] == s[1..][k..];
    }
  }

  /** The Proxy `set` trap: a property write through the proxy reports success and is discarded. */
  method ProxySet(room: Room, value: RoomState) returns (accepted: bool)
    ensures accepted
    ensures unchanged(room)
  {
    accepted := true;
  }

  class Registry {
    const io: Io
    /** The keys of `rooms` in insertion order. */
    var order: seq<string>
    var rooms: map<string, Room>

    ghost predicate Valid()
      reads this
    {
      && Distinct(order)
      && (forall n :: n in rooms <==> n in order)
      && (forall n :: n in rooms ==> rooms[n].io == io)
    }

    constructor (io: Io)
      ensures Valid() && this.io == io && order == [] && rooms == map[]
    {
      this.io := io;
      order := [];
      rooms := map[];
    }

    /** The position of the first eligible room at or after position i, in insertion order. */
    function EligibleFrom(i: nat, u: string): (k: Option<nat>)
      reads this, rooms.Values
      requires Valid() && i <= |order|
      ensures k.Some? ==> i <= k.value < |order| && Eligible(rooms[order[k.value]], u)
      ensures k.Some? ==> forall j :: i <= j < k.value ==> !Eligible(rooms[order[j]], u)
      ensures k.None? <==> forall j :: i <= j < |order| ==> !Eligible(rooms[order[j]], u)
      decreases |order| - i
    {
      if i == |order| then None
      else if Eligible(rooms[order[i]], u) then Some(i)
      else EligibleFrom(i + 1, u)
    }

    /** The first eligible room is the one at k when k is eligible and nothing before it is. */
    lemma {:induction false} EligibleFromIs(i: nat, k: nat, u: string)
      requires Valid() && i <= k < |order|
      requires Eligible(rooms[order[k]], u)
      requires forall j :: i <= j < k ==> !Eligible(rooms[order[j]], u)
      ensures EligibleFrom(i, u) == Some(k)
      decreases k - i
    {
      if i < k {
        EligibleFromIs(i + 1, k, u);
      }
    }

    /** `findRoom(u)`: the first room in insertion order that u may join, or None when there is none. */
    method FindRoom(u: string) returns (r: Option<Room>)
      requires Valid()
      ensures r.None? <==> EligibleFrom(0, u).None?
      ensures r.Some? ==> r.value == rooms[order[EligibleFrom(0, u).value]]
    {
      var i := 0;
      while i < |order|
        invariant i <= |order|
        invariant EligibleFrom(0, u) == EligibleFrom(i, u)
      {
        var room := rooms[order[i]];
        if u in room.state.progresses || !room.state.active {
          return Some(room);
        }
        i := i + 1;
      }
      return None;
    }

    /** `recordRoom(rooms)(room)`: the room is mapped under its name (replacing any namesake in place) and returned. */
    method Record(room: Room) returns (recorded: Room)
      requires Valid() && room.io == io
      modifies this
      ensures Valid() && recorded == room
      ensures rooms == old(rooms)[room.state.name := room]
      ensures order == if room.state.name in old(rooms) then old(order) else old(order) + [room.state.name]
    {
      var name := room.state.name;
      if name !in rooms {
        order := order + [name];
      }
      rooms := rooms[name := room];
      recorded := room;
    }

    /** The empty-room callback: `rooms.delete(name)`. */
    method Delete(name: string)
      requires Valid()
      modifies this
      ensures Valid()
      ensures rooms == old(rooms) - {name} && order == Without(old(order), name)
    {
      order := Without(order, name);
      rooms := rooms - {name};
    }

    /**
     * `createRoom(io)`: a new room on `track` named `name`; the factory's
     * `room.state = {}` goes through the proxy and is swallowed.
     */
    method CreateRoom(track: string, name: string) returns (room: Room)
      modifies io
      ensures fresh(room) && room.io == io && room.channel == name
      ensures room.state == Initial(track, name)
      ensures room.countdownRunning && !room.timerRunning
      ensures io.log == old(io.log) + [ToRoom(name, Announce(RoomCreated))]
    {
      room := new Room(io, NoChanges, track, name);
      MergeNoChanges(Initial(track, name));
      var _ := ProxySet(room, RoomState([], 0, [], false, 0, map[], {}));
    }

    /**
     * `findRoom(u) || recordRoom(rooms)(createRoom(io))`: the first eligible
     * room, or else a new room on `track` named `name`, recorded.
     */
    method Place(u: string, track: string, name: string) returns (room: Room)
      requires Valid()
      modifies this, io
      ensures Valid() && room.io == io && room in rooms.Values
      ensures old(EligibleFrom(0, u)).Some? ==>
        && room == old(rooms[order[EligibleFrom(0, u).value]])
        && order == old(order) && rooms == old(rooms) && io.log == old(io.log)
      ensures old(EligibleFrom(0, u)).None? ==>
        && fresh(room) && room.channel == name
        && rooms == old(rooms)[name := room]
        && order == (if name in old(rooms) then old(order) else old(order) + [name])
        && room.state == Initial(track, name)
        && room.countdownRunning && !room.timerRunning
        && io.log == old(io.log) + [ToRoom(name, Announce(RoomCreated))]
    {
      var found := FindRoom(u);
      if found.Some? {
        room := found.value;
        assert order[EligibleFrom(0, u).value] in rooms;
      } else {
        var created := CreateRoom(track, name);
        room := Record(created);
        assert name in rooms && rooms[name] == room;
      }
    }

    /** The accepted handshake once the room is known: join its group, `authSuccess`, then `playerJoined` locally. */
    method Admit(socket: SocketId, u: string, room: Room) returns (conn: Connection)
      requires room.io == io
      modifies io, room
      ensures conn == Connection(socket, u, room)
      ensures room.state == Joined(old(room.state), u)
      ensures room.countdownRunning == old(room.countdownRunning) && room.timerRunning == old(room.timerRunning)
      ensures io.log == old(io.log) + [JoinGroup(socket, old(room.state.name)),
                                       ToSocket(socket, AuthSuccess(u, old(room.state))),
                                       ToRoom(room.channel, JoinedOut(u, room.state.progresses[u]))]
    {
      io.log := io.log + [JoinGroup(socket, room.state.name)];
      io.log := io.log + [ToSocket(socket, AuthSuccess(u, room.state))];
      var _ := room.EmitLocal(PlayerJoined(u), "");
      conn := Connection(socket, u, room);
    }

    /**
     * A new connection. A rejected handshake gets `authFail` and is
     * disconnected, and no room is touched; an accepted one is placed in a
     * room and admitted to it.
     */
    method Connect(socket: SocketId, token: Option<string>, verified: Verified, track: string, name: string)
      returns (conn: Option<Connection>)
      requires Valid()
      modifies this, io, rooms.Values
      ensures Valid()
      ensures conn.Some? <==> Login(token, verified).Some?
      ensures conn.None? ==>
        && order == old(order) && rooms == old(rooms)
        && io.log == old(io.log) + [ToSocket(socket, AuthFail), Disconnect(socket)]
      ensures forall r :: r in old(rooms).Values && (conn.None? || r != conn.value.room) ==> unchanged(r)
      ensures conn.Some? ==>
        && conn.value.username == Login(token, verified).value
        && conn.value.socket == socket && conn.value.room.io == io && conn.value.room in rooms.Values
      ensures conn.Some? && old(EligibleFrom(0, Login(token, verified).value)).Some? ==>
        var u := Login(token, verified).value;
        var room := conn.value.room;
        && room == old(rooms[order[EligibleFrom(0, u).value]])
        && order == old(order) && rooms == old(rooms)
        && room.state == Joined(old(room.state), u)
        && room.countdownRunning == old(room.countdownRunning) && room.timerRunning == old(room.timerRunning)
        && io.log == old(io.log) + [JoinGroup(socket, old(room.state.name)),
                                    ToSocket(socket, AuthSuccess(u, old(room.state))),
                                    ToRoom(room.channel, JoinedOut(u, room.state.progresses[u]))]
      ensures conn.Some? && old(EligibleFrom(0, Login(token, verified).value)).None? ==>
        var u := Login(token, verified).value;
        var room := conn.value.room;
        && fresh(room)
        && rooms == old(rooms)[name := room]
        && order == (if name in old(rooms) then old(order) else old(order) + [name])
        && room.state == Joined(Initial(track, name), u)
        && room.countdownRunning && !room.timerRunning
        && io.log == old(io.log) + [ToRoom(name, Announce(RoomCreated)),
                                    JoinGroup(socket, name),
                                    ToSocket(socket, AuthSuccess(u, Initial(track, name))),
                                    ToRoom(name, JoinedOut(u, 0))]
    {
      var login := Login(token, verified);
      if login.None? {
        io.log := io.log + [ToSocket(socket, AuthFail), Disconnect(socket)];
        return None;
      }
      var room := Place(login.value, track, name);
      var c := Admit(socket, login.value, room);
      conn := Some(c);
    }

    /** A `playerProgress` message on the connection: `emit('playerProgress', username, progress)` on its room. */
    method OnProgress(conn: Connection, username: string, progress: int)
      requires conn.room.io == io
      modifies io, conn.room
      ensures conn.room.Became(Broadcast(old(conn.room.Snapshot()), PlayerProgress(username, progress), ""), false)
    {
      var _ := conn.room.Emit(PlayerProgress(username, progress), "");
    }

    /**
     * The connection closes: `playerLeft` is raised on its room, and when the
     * room calls back (every known player gone) its name leaves the registry.
     */
    method OnDisconnect(conn: Connection)
      requires Valid() && conn.room.io == io
      modifies this, io, conn.room
      ensures Valid()
      ensures var r := React(old(conn.room.Snapshot()), PlayerLeft(conn.username), "");
        && conn.room.Became(r, r.deleteRoom)
        && (r.deleteRoom ==> rooms == old(rooms) - {old(conn.room.state.name)}
                             && order == Without(old(order), old(conn.room.state.name)))
        && (!r.deleteRoom ==> rooms == old(rooms) && order == old(order))
    {
      var deleted := conn.room.EmitLocal(PlayerLeft(conn.username), "");
      if deleted {
        Delete(conn.room.state.name);
      }
    }
  }
}
