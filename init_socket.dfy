/**
 * The earlier revision of the socket server: rooms are `RaceState` records
 * in a plain object keyed by room name, and each connection keeps its login,
 * its room and its own countdown interval.
 */
module InitSocket {
  import opened Wrappers
  import opened RoomTypes
  import opened Transport

  /** One room of this revision. */
  datatype RaceState = RaceState(active: bool, time: int, progresses: map<string, int>, disconnected: set<string>)

  /** The state `addRoom` installs. */
  const FreshRace := RaceState(false, 30, map[], {})

  datatype Message =
    | CheckJwtFailed
    | SubscribeResponse(login: string, track: string, state: RaceState, room: string)
    | PlayerConnected(login: string, progress: int)
    | RoomCountdownTick(time: int)
    | RoomStarted(state: RaceState)
    | PlayerDisconnected(login: string)
    | OpponentProgress(login: string, progress: int)

  datatype Packet =
    | ToSelf(socket: SocketId, message: Message)                   // socket.emit
    | ToOthersInRoom(socket: SocketId, room: string, message: Message) // socket.to(room) / socket.in(room)
    | ToAllOthers(socket: SocketId, message: Message)              // socket.broadcast.emit
    | JoinRoom(socket: SocketId, room: string)                     // socket.join(room)

  /** The test in `findRoom`: u already has a progress there, or the room is not active. */
  predicate Free(s: RaceState, u: string) {
    u in s.progresses || !s.active
  }

  predicate Distinct(s: seq<string>) {
    forall i, j :: 0 <= i < j < |s| ==> s[i] != s[j]
  }

  /** `Object.entries(races).find(...)`: the position of the first free room in insertion order. */
  function FirstFree(order: seq<string>, races: map<string, RaceState>, u: string): (k: Option<nat>)
    requires forall n :: n in order ==> n in races
    ensures k.Some? ==> k.value < |order| && Free(races[order[k.value]], u)
    ensures k.Some? ==> forall j :: 0 <= j < k.value ==> !Free(races[order[j]], u)
    ensures k.None? <==> forall j :: 0 <= j < |order| ==> !Free(races[order[j]], u)
  {
    if order == [] then None
    else if Free(races[order[0]], u) then Some(0)
    else
      match FirstFree(order[1..], races, u)
      case None => None
      case Some(k) => Some(k + 1)
  }

  /** The room `findRoom(u)` answers: the first free one, or the room it adds under the random name. */
  function Destination(order: seq<string>, races: map<string, RaceState>, u: string, random: string): string
    requires forall n :: n in order ==> n in races
  {
    match FirstFree(order, races, u)
    case Some(k) => order[k]
    case None => random
  }

  /** The state of that room when u is seated in it: a fresh one when it was just added. */
  function SeatBefore(order: seq<string>, races: map<string, RaceState>, u: string): RaceState
    requires forall n :: n in order ==> n in races
  {
    match FirstFree(order, races, u)
    case Some(k) => races[order[k]]
    case None => FreshRace
  }

  /** One firing of a countdown interval: the time drops by one while above 0, else the room becomes active. */
  function CountdownStep(s: RaceState): (r: RaceState)
    ensures s.time > 0 ==> r == s.(time := s.time - 1)
    ensures s.time <= 0 ==> r == s.(active := true)
  {
    if s.time > 0 then s.(time := s.time - 1) else s.(active := true)
  }

  /**
   * The state after k firings of a connection's interval. The firing that
   * finds the time at 0 activates the room and clears the interval, so no
   * firing follows it.
   */
  function Countdown(s: RaceState, k: nat): RaceState
    decreases k
  {
    if k == 0 then s
    else if s.time <= 0 then CountdownStep(s)
    else Countdown(CountdownStep(s), k - 1)
  }

  /** The times those k firings announce to the room, in order. */
  function Announced(s: RaceState, k: nat): seq<int>
    decreases k
  {
    if k == 0 || s.time <= 0 then [] else [s.time] + Announced(CountdownStep(s), k - 1)
  }

  /** While time remains, k firings take k off the time, change nothing else, and announce the time before each decrement. */
  lemma {:induction false} CountdownDecrements(s: RaceState, k: nat)
    requires k <= s.time
    ensures Countdown(s, k) == s.(time := s.time - k)
    ensures |Announced(s, k)| == k && forall i :: 0 <= i < k ==> Announced(s, k)[i] == s.time - i
    decreases k
  {
    if k > 0 {
      var next := CountdownStep(s);
      CountdownDecrements(next, k - 1);
      var a := Announced(s, k);
      assert a == [s.time] + Announced(next, k - 1);
      forall i | 0 < i < k
        ensures a[i] == s.time - i
      {
        assert a[i] == Announced(next, k - 1)[i - 1];
      }
    }
  }

  /**
   * The firing after the time has run out activates the room and announces
   * nothing; the interval is then cleared, so any number k of firings past
   * the time leaves the same state and the same announcements.
   */
  lemma {:induction false} CountdownRunsOut(s: RaceState, k: nat)
    requires s.time >= 0 && k > s.time
    ensures Countdown(s, k) == s.(time := 0, active := true)
    ensures Announced(s, k) == Announced(s, s.time)
    decreases s.time
  {
    if s.time > 0 {
      CountdownRunsOut(CountdownStep(s), k - 1);
    }
  }

  /** A fresh room announces 30, 29, ..., 1, is still inactive at 0 after 30 firings, and starts on the 31st. */
  lemma FreshRaceStarts()
    ensures var a := Announced(FreshRace, 30);
      |a| == 30 && forall i :: 0 <= i < 30 ==> a[i] == 30 - i
    ensures !Countdown(FreshRace, 30).active && Countdown(FreshRace, 30).time == 0
    ensures Countdown(FreshRace, 31).active && Countdown(FreshRace, 31).time == 0
    ensures Announced(FreshRace, 31) == Announced(FreshRace, 30)
  {
    CountdownDecrements(FreshRace, 30);
    CountdownRunsOut(FreshRace, 31);
  }

  /** The join rule: u is connected again and has a progress, 0 for a newcomer; nobody else changes. */
  function Admitted(s: RaceState, u: string): (r: RaceState)
    ensures r.disconnected == s.disconnected - {u}
    ensures u in r.progresses && r.progresses[u] == (if u in s.progresses then s.progresses[u] else 0)
    ensures forall v :: v != u ==> (v in r.progresses <==> v in s.progresses)
    ensures forall v :: v != u && v in s.progresses ==> r.progresses[v] == s.progresses[v]
    ensures r.active == s.active && r.time == s.time
  {
    RaceState(s.active, s.time,
              if u in s.progresses then s.progresses else s.progresses[u := 0],
              s.disconnected - {u})
  }

  /**
   * What an accepted `checkJWT` sends once u is seated in room `name` with
   * state s: the join, then the subscription answer and the announcement to
   * the others, or `checkJWTFailed` when there is no track (`track!.text`
   * throws after the join).
   */
  function Replies(track: Option<string>, socket: SocketId, u: string, name: string, s: RaceState): (r: seq<Packet>)
    requires u in s.progresses
    ensures |r| == (if track.None? then 2 else 3) && r[0] == JoinRoom(socket, name)
    ensures track.None? <==> r[1] == ToSelf(socket, CheckJwtFailed)
    ensures track.Some? ==>
      && r[1] == ToSelf(socket, SubscribeResponse(u, track.value, s, name))
      && r[2] == ToOthersInRoom(socket, name, PlayerConnected(u, s.progresses[u]))
  {
    [JoinRoom(socket, name)] +
    (if track.None? then [ToSelf(socket, CheckJwtFailed)]
     else [ToSelf(socket, SubscribeResponse(u, track.value, s, name)),
           ToOthersInRoom(socket, name, PlayerConnected(u, s.progresses[u]))])
  }

  /** What `userLogin` and `roomName` hold once a handshake has been accepted. */
  datatype Session = Session(login: string, room: string)

  /** The closure state of one connection: its session and whether its `roomCountdown` interval is running. */
  class Connection {
    const socket: SocketId
    var session: Option<Session>
    var countdownRunning: bool

    constructor (socket: SocketId)
      ensures this.socket == socket && session.None? && !countdownRunning
    {
      this.socket := socket;
      session := None;
      countdownRunning := false;
    }
  }

  class RaceServer {
    /** The keys of `races` in property order. */
    var order: seq<string>
    var races: map<string, RaceState>
    var sent: seq<Packet>
    /** The text of the track `getById('1')` resolved to when the server started; None for `null`. */
    const track: Option<string>

    ghost predicate Valid()
      reads this
    {
      && Distinct(order)
      && (forall n :: n in races <==> n in order)
    }

    /** The module's initial `races`: one free room named "first". */
    constructor (track: Option<string>)
      ensures Valid() && this.track == track
      ensures order == ["first"] && races == map["first" := FreshRace] && sent == []
    {
      this.track := track;
      order := ["first"];
      races := map["first" := FreshRace];
      sent := [];
    }

    /**
     * `addRoom(name)`: a fresh state under `name`, or under the random name
     * when `name` is missing or empty; an existing entry is replaced in place.
     */
    method AddRoom(name: Option<string>, random: string) returns (key: string)
      requires Valid()
      modifies this
      ensures key == if name.Some? && name.value != "" then name.value else random
      ensures Valid() && races == old(races)[key := FreshRace]
      ensures order == if key in old(races) then old(order) else old(order) + [key]
      ensures sent == old(sent)
    {
      key := if name.Some? && name.value != "" then name.value else random;
      if key !in races {
        order := order + [key];
      }
      races := races[key := FreshRace];
    }

    /** `findRoom(u)`: the first free room's name, or else a room added under `random`. */
    method FindRoom(u: string, random: string) returns (key: string)
      requires Valid()
      modifies this
      ensures Valid() && sent == old(sent)
      ensures key == Destination(old(order), old(races), u, random)
      ensures key in races && races[key] == SeatBefore(old(order), old(races), u)
      ensures FirstFree(old(order), old(races), u).Some? ==> races == old(races) && order == old(order)
      ensures FirstFree(old(order), old(races), u).None? ==>
        && races == old(races)[random := FreshRace]
        && order == (if random in old(races) then old(order) else old(order) + [random])
    {
      var found := FirstFree(order, races, u);
      if found.Some? {
        key := order[found.value];
      } else {
        key := AddRoom(None, random);
      }
    }

    /**
     * The `checkJWT` callback. `verified` is the login the token carries, None
     * when verification throws. The user is placed in the first free room (or
     * a new one named `random`), which becomes the connection's room, leaves
     * its disconnected set and gets progress 0 if new; the connection's
     * countdown interval starts only when a newcomer enters a room without
     * players. A missing track throws after all of that, and the catch answers
     * `checkJWTFailed`.
     */
    method Join(conn: Connection, verified: Option<string>, random: string)
      requires Valid()
      modifies this, conn
      ensures Valid()
      ensures verified.None? ==>
        && races == old(races) && order == old(order)
        && sent == old(sent) + [ToSelf(conn.socket, CheckJwtFailed)]
        && conn.session == old(conn.session) && conn.countdownRunning == old(conn.countdownRunning)
      ensures verified.Some? ==>
        var u := verified.value;
        var name := Destination(old(order), old(races), u, random);
        var before := SeatBefore(old(order), old(races), u);
        && conn.session == Some(Session(u, name))
        && races == old(races)[name := Admitted(before, u)]
        && order == (if name in old(races) then old(order) else old(order) + [name])
        && conn.countdownRunning == (old(conn.countdownRunning) || (u !in before.progresses && |before.progresses| == 0))
        && sent == old(sent) + Replies(track, conn.socket, u, name, races[name])
    {
      if verified.None? {
        sent := sent + [ToSelf(conn.socket, CheckJwtFailed)];
        return;
      }
      var u := verified.value;
      ghost var before := races;
      var name := FindRoom(u, random);
      Seat(conn, u, name);
    }

    /** The rest of an accepted `checkJWT` once the room is chosen: the session, the join, the seat and the answer. */
    method Seat(conn: Connection, u: string, name: string)
      requires Valid() && name in races
      modifies this, conn
      ensures Valid() && order == old(order) && conn.session == Some(Session(u, name))
      ensures races == old(races)[name := Admitted(old(races)[name], u)]
      ensures conn.countdownRunning ==
        (old(conn.countdownRunning) || (u !in old(races)[name].progresses && |old(races)[name].progresses| == 0))
      ensures sent == old(sent) + Replies(track, conn.socket, u, name, races[name])
    {
      conn.session := Some(Session(u, name));
      var s := races[name];
      // the countdown starts when a newcomer enters a room nobody has a progress in
      if u !in s.progresses && |s.progresses| == 0 {
        conn.countdownRunning := true;
      }
      races := races[name := Admitted(s, u)];
      sent := sent + Replies(track, conn.socket, u, name, races[name]);
    }

    /**
     * One firing of the connection's countdown interval on its room: while its time is above 0 the
     * time is announced to the room and decremented; at 0 the room becomes
     * active, is sent to this socket, and the interval is cleared.
     */
    method CountdownTick(conn: Connection)
      requires Valid() && conn.countdownRunning && conn.session.Some? && conn.session.value.room in races
      modifies this, conn
      ensures Valid() && order == old(order) && conn.session == old(conn.session)
      ensures var name := conn.session.value.room; var s := old(races)[name];
        && races == old(races)[name := CountdownStep(s)]
        && (s.time > 0 ==>
              && sent == old(sent) + [ToOthersInRoom(conn.socket, name, RoomCountdownTick(s.time))]
              && conn.countdownRunning)
        && (s.time <= 0 ==>
              && sent == old(sent) + [ToSelf(conn.socket, RoomStarted(CountdownStep(s)))]
              && !conn.countdownRunning)
    {
      var name := conn.session.value.room;
      var s := races[name];
      if s.time > 0 {
        sent := sent + [ToOthersInRoom(conn.socket, name, RoomCountdownTick(s.time))];
        races := races[name := s.(time := s.time - 1)];
      } else {
        races := races[name := s.(active := true)];
        sent := sent + [ToSelf(conn.socket, RoomStarted(races[name]))];
        conn.countdownRunning := false;
      }
    }

    /**
     * The connection closes. On its room the login is announced and added to
     * the disconnected set, and when every player with a progress is then
     * disconnected the room is reset in place by `addRoom(roomName)`. Before
     * an accepted handshake there is no room and the handler stops at its
     * first property access.
     */
    method Disconnect(conn: Connection, random: string)
      requires Valid() && (conn.session.Some? ==> conn.session.value.room in races)
      modifies this
      ensures Valid()
      ensures conn.session.None? ==> races == old(races) && order == old(order) && sent == old(sent)
      ensures conn.session.Some? ==>
        var u := conn.session.value.login;
        var name := conn.session.value.room;
        var gone := old(races)[name].disconnected + {u};
        var left := old(races)[name].(disconnected := gone);
        var key := if name != "" then name else random;
        && sent == old(sent) + [ToOthersInRoom(conn.socket, name, PlayerDisconnected(u))]
        && (left.progresses.Keys <= gone ==>
              && races == old(races)[name := left][key := FreshRace]
              && order == (if key in old(races) then old(order) else old(order) + [key]))
        && (!(left.progresses.Keys <= gone) ==>
              races == old(races)[name := left] && order == old(order))
    {
      if conn.session.None? {
        return;
      }
      var u := conn.session.value.login;
      var name := conn.session.value.room;
      sent := sent + [ToOthersInRoom(conn.socket, name, PlayerDisconnected(u))];
      var gone := races[name].disconnected + {u};
      var s := races[name].(disconnected := gone);
      races := races[name := s];
      var shouldStopRace := EveryoneIn(s.progresses.Keys, s.disconnected);
      if shouldStopRace {
        var _ := AddRoom(Some(name), random);
      }
    }

    /** `progressChange`: the reported progress is stored verbatim in the connection's room and relayed to every other socket. */
    method ProgressChange(conn: Connection, login: string, progress: int)
      requires Valid() && (conn.session.Some? ==> conn.session.value.room in races)
      modifies this
      ensures Valid() && order == old(order)
      ensures conn.session.None? ==> races == old(races) && sent == old(sent)
      ensures conn.session.Some? ==>
        var name := conn.session.value.room;
        var s := old(races)[name];
        && races == old(races)[name := s.(progresses := s.progresses[login := progress])]
        && sent == old(sent) + [ToAllOthers(conn.socket, OpponentProgress(login, progress))]
    {
      if conn.session.None? {
        return;
      }
      var name := conn.session.value.room;
      var s := races[name];
      races := races[name := s.(progresses := s.progresses[login := progress])];
      sent := sent + [ToAllOthers(conn.socket, OpponentProgress(login, progress))];
    }
  }
}
