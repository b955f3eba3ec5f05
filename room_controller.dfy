/**
 * The per-room state machine (`Room`) and its event bus (`RoomEventEmitter`).
 *
 * `React` is the reference definition: what the room's local handlers do
 * with one event. The class `Room` is the imperative controller; each of its
 * methods is proved to move its state, its two timers and the socket log
 * exactly as `React` says.
 */
module RoomController {
  import opened Wrappers
  import opened RoomTypes
  import opened Transport

  const InitialCountdown := 15
  const RestartCountdown := 30

  /** The state a room is constructed with, before `givenState` is merged in. */
  function Initial(track: string, name: string): RoomState {
    RoomState(track, TimeBudget(|track|), name, false, InitialCountdown, map[], {})
  }

  /** `onStart`: every known player's progress becomes 0 and the race is active. */
  function Started(s: RoomState): (r: RoomState)
    ensures r.active
    ensures r.progresses.Keys == s.progresses.Keys
    ensures forall u :: u in r.progresses ==> r.progresses[u] == 0
    ensures r == s.(active := true, progresses := r.progresses)
  {
    s.(active := true, progresses := map u | u in s.progresses :: 0)
  }

  /** `onEnd` with `track` as the new track: a fresh budget, inactive, countdown restarted. */
  function Ended(s: RoomState, track: string): (r: RoomState)
    ensures !r.active && r.countdown == RestartCountdown
    ensures r.track == track && r.time % 10 == 0 && |track| <= r.time < |track| + 10
    ensures r.progresses == s.progresses && r.disconnected == s.disconnected && r.name == s.name
  {
    s.(track := track, time := TimeBudget(|track|), active := false, countdown := RestartCountdown)
  }

  /** `onPlayerJoined(u)`: u is connected again, and has a progress (0 if it had none). */
  function Joined(s: RoomState, u: string): (r: RoomState)
    ensures r.disconnected == s.disconnected - {u}
    ensures u in r.progresses
    ensures r.progresses[u] == if u in s.progresses then s.progresses[u] else 0
    ensures forall v :: v != u ==> (v in r.progresses <==> v in s.progresses)
    ensures forall v :: v != u && v in s.progresses ==> r.progresses[v] == s.progresses[v]
    ensures r == s.(progresses := r.progresses, disconnected := r.disconnected)
  {
    s.(progresses := if u in s.progresses then s.progresses else s.progresses[u := 0],
       disconnected := s.disconnected - {u})
  }

  /** `shouldStopRoom` in `onPlayerLeft(u)`: every known player is disconnected once u is. */
  predicate AllGone(s: RoomState, u: string) {
    s.progresses.Keys <= s.disconnected + {u}
  }

  /** A room's state together with whether its countdown and race intervals are running. */
  datatype Machine = Machine(state: RoomState, countdowner: bool, timer: bool)

  /**
   * The outcome of one event: the new machine, what was sent to the room's
   * socket group (in order), and whether the empty-room callback was called.
   */
  datatype Reaction = Reaction(next: Machine, sent: seq<Outbound>, deleteRoom: bool)

  /** `onStart`, reached from `emitLocal('roomStart')`: countdown cleared, race timer set, state broadcast. */
  function StartReaction(m: Machine): Reaction {
    var s := Started(m.state);
    Reaction(Machine(s, false, true), [StartOut(s)], false)
  }

  /** `onEnd`, reached from `emitLocal('roomEnd')`: race timer cleared, new track, countdown set again. */
  function EndReaction(m: Machine, draw: string): Reaction {
    var s := Ended(m.state, draw);
    Reaction(Machine(s, true, false), [EndOut(s.countdown, s.time)], false)
  }

  /**
   * `emitLocal(e)`: the room's own handler for `e` runs. `draw` is the text the
   * track service hands out if the handler (or one it raises) picks a new track.
   */
  function React(m: Machine, e: Event, draw: string): Reaction {
    match e
    case RoomCreated =>
      Reaction(m.(countdowner := true), [], false)
    case RoomCountdown(n) =>
      if n > 0 then
        Reaction(m.(state := m.state.(countdown := n - 1)), [Announce(RoomCountdown(n - 1))], false)
      else
        StartReaction(m)
    case RoomStart =>
      StartReaction(m)
    case RoomTime(t) =>
      if t > 0 then
        Reaction(m.(state := m.state.(time := t - 1)), [], false)
      else
        EndReaction(m, draw)
    case RoomEnd =>
      EndReaction(m, draw)
    case PlayerJoined(u) =>
      var s := Joined(m.state, u);
      Reaction(m.(state := s), [JoinedOut(u, s.progresses[u])], false)
    case PlayerLeft(u) =>
      if AllGone(m.state, u) then
        Reaction(m.(countdowner := false, timer := false), [], true)
      else
        Reaction(m.(state := m.state.(disconnected := m.state.disconnected + {u})), [Announce(PlayerLeft(u))], false)
    case PlayerProgress(u, p) =>
      Reaction(m.(state := m.state.(progresses := m.state.progresses[u := p])), [], false)
  }

  /** Handlers that raise another event locally come first in the termination order. */
  function Rank(e: Event): nat {
    if e.RoomCountdown? || e.RoomTime? then 1 else 0
  }

  /** `emit(e)`: the local handlers first, then `e` itself to the socket group. */
  function Broadcast(m: Machine, e: Event, draw: string): Reaction {
    var r := React(m, e, draw);
    r.(sent := r.sent + [Announce(e)])
  }

  /** One tick of the countdown interval: `emitLocal('roomCountdown', state.countdown)`. */
  function CountdownTick(m: Machine): Reaction {
    React(m, RoomCountdown(m.state.countdown), "")
  }

  /** One tick of the race interval: `emit('roomTime', state.time)`. */
  function RaceTick(m: Machine, draw: string): Reaction {
    Broadcast(m, RoomTime(m.state.time), draw)
  }

  /** The machine after `k` countdown ticks; a stopped interval ticks no more. */
  function Countdown(m: Machine, k: nat): Machine
    decreases k
  {
    if k == 0 then m
    else if m.countdowner then Countdown(CountdownTick(m).next, k - 1)
    else m
  }

  /** `onCountdown(n)`: above zero the countdown becomes n - 1 and exactly that is broadcast; otherwise only `roomStart` is raised. */
  lemma CountdownStep(m: Machine, n: int)
    ensures var r := React(m, RoomCountdown(n), "");
      && (n > 0 ==> r.next == m.(state := m.state.(countdown := n - 1)) && r.sent == [Announce(RoomCountdown(n - 1))])
      && (n <= 0 ==> r == React(m, RoomStart, "") && r.next.state.countdown == m.state.countdown)
      && !r.deleteRoom
  {
  }

  /** `onStart`: countdown cancelled, race timer set, every existing progress is 0 and no key is added or removed. */
  lemma StartResets(m: Machine)
    ensures var r := React(m, RoomStart, "");
      && r.next.state.active && !r.next.countdowner && r.next.timer
      && r.next.state.progresses.Keys == m.state.progresses.Keys
      && (forall u :: u in r.next.state.progresses ==> r.next.state.progresses[u] == 0)
      && r.next.state.(active := m.state.active, progresses := m.state.progresses) == m.state
      && r.sent == [StartOut(r.next.state)]
  {
  }

  /** `onTime(t)`: above zero the time becomes t - 1 and nothing is sent; otherwise only `roomEnd` is raised. */
  lemma TimeStep(m: Machine, t: int, draw: string)
    ensures var r := React(m, RoomTime(t), draw);
      && (t > 0 ==> r.next == m.(state := m.state.(time := t - 1)) && r.sent == [])
      && (t <= 0 ==> r == React(m, RoomEnd, draw))
  {
  }

  /**
   * `onEnd`: race timer cancelled, countdown set again, inactive with countdown 30,
   * a new track with its budget; progresses and disconnected are untouched.
   */
  lemma EndResets(m: Machine, draw: string)
    ensures var r := React(m, RoomEnd, draw);
      && !r.next.state.active && r.next.state.countdown == 30
      && r.next.state.track == draw && r.next.state.time == TimeBudget(|draw|)
      && r.next.state.progresses == m.state.progresses
      && r.next.state.disconnected == m.state.disconnected
      && r.next.state.name == m.state.name
      && r.next.countdowner && !r.next.timer
      && r.sent == [EndOut(30, TimeBudget(|draw|))]
  {
  }

  /** `onPlayerJoined(u)`: u leaves the disconnected set and keeps its progress, or gets 0; nobody else changes. */
  lemma JoinKeepsProgress(m: Machine, u: string)
    ensures var r := React(m, PlayerJoined(u), "");
      && u !in r.next.state.disconnected
      && r.next.state.disconnected == m.state.disconnected - {u}
      && r.next.state.progresses == (if u in m.state.progresses then m.state.progresses else m.state.progresses[u := 0])
      && r.next.countdowner == m.countdowner && r.next.timer == m.timer
      && r.sent == [JoinedOut(u, r.next.state.progresses[u])]
  {
  }

  /**
   * `onPlayerLeft(u)`: when every known player is in `disconnected + {u}` both
   * timers stop, the callback is called, nothing is sent and the state is kept;
   * otherwise u joins `disconnected` and `playerLeft` is broadcast.
   */
  lemma LeaveCases(m: Machine, u: string)
    ensures var r := React(m, PlayerLeft(u), "");
      && (r.deleteRoom <==> m.state.progresses.Keys <= m.state.disconnected + {u})
      && (r.deleteRoom ==> r.next == Machine(m.state, false, false) && r.sent == [])
      && (!r.deleteRoom ==> r.next == m.(state := m.state.(disconnected := m.state.disconnected + {u}))
                            && r.sent == [Announce(PlayerLeft(u))])
  {
  }

  /** `onPlayerProgress(u, p)`: p is stored verbatim for u; nothing else changes and nothing is sent locally. */
  lemma ProgressVerbatim(m: Machine, u: string, p: int)
    ensures var r := React(m, PlayerProgress(u, p), "");
      && r.next.state.progresses == m.state.progresses[u := p]
      && r.next.state.(progresses := m.state.progresses) == m.state
      && r.next.countdowner == m.countdowner && r.next.timer == m.timer
      && r.sent == [] && !r.deleteRoom
  {
  }

  /**
   * `emit` runs the local handlers before the socket send: on the race tick
   * that finds the time at 0, `roomEnd` reaches the group before that `roomTime`.
   */
  lemma LocalBeforeSocket(m: Machine, draw: string)
    requires m.state.time <= 0
    ensures RaceTick(m, draw).sent == [EndOut(30, TimeBudget(|draw|)), Announce(RoomTime(m.state.time))]
  {
  }

  /**
   * After construction the countdown and the race intervals never run at the
   * same time (`roomCreated` is raised only by the constructor, before any timer is set).
   */
  lemma TimersExclusive(m: Machine, e: Event, draw: string)
    requires !(m.countdowner && m.timer) && !e.RoomCreated?
    ensures var n := React(m, e, draw).next; !(n.countdowner && n.timer)
  {
  }

  /** While the countdown has not reached 0, each tick takes exactly one off it and changes nothing else. */
  lemma {:induction false} CountdownDecrements(m: Machine, k: nat)
    requires m.countdowner && k <= m.state.countdown
    ensures Countdown(m, k) == m.(state := m.state.(countdown := m.state.countdown - k))
    decreases k
  {
    if k > 0 {
      var next := CountdownTick(m).next;
      assert next == m.(state := m.state.(countdown := m.state.countdown - 1));
      CountdownDecrements(next, k - 1);
    }
  }

  /**
   * A countdown starting at c >= 0 decrements c times and keeps the room
   * inactive; the tick after that, the one that reads 0, starts the race.
   */
  lemma {:induction false} CountdownStarts(m: Machine)
    requires m.countdowner && m.state.countdown >= 0
    ensures var c := m.state.countdown;
      && Countdown(m, c) == m.(state := m.state.(countdown := 0))
      && Countdown(m, c + 1) == StartReaction(m.(state := m.state.(countdown := 0))).next
  {
    var c := m.state.countdown;
    CountdownDecrements(m, c);
    var zero := m.(state := m.state.(countdown := 0));
    CountdownDecrements(m, 0);
    if c == 0 {
      assert Countdown(m, 1) == Countdown(CountdownTick(m).next, 0);
    } else {
      CountdownAppend(m, c);
    }
  }

  /** Ticking k times and then once more is ticking k + 1 times. */
  lemma {:induction false} CountdownAppend(m: Machine, k: nat)
    ensures Countdown(m, k + 1) == Countdown(Countdown(m, k), 1)
    decreases k
  {
    if k > 0 && m.countdowner {
      CountdownAppend(CountdownTick(m).next, k - 1);
    }
  }

  /**
   * A new room on a 30-character track has 30 seconds of race time, is
   * inactive with countdown 15, is still waiting after 15 ticks and racing
   * after the 16th.
   */
  lemma CreatedRoomStarts(track: string, name: string)
    requires |track| == 30
    ensures var m := Machine(Merge(Initial(track, name), NoChanges), true, false);
      && m.state.time == 30 && !m.state.active && m.state.countdown == 15
      && !Countdown(m, 15).state.active && Countdown(m, 15).state.countdown == 0
      && Countdown(m, 16).state.active && Countdown(m, 16).timer
  {
    var m := Machine(Merge(Initial(track, name), NoChanges), true, false);
    MergeNoChanges(Initial(track, name));
    CountdownStarts(m);
  }

  /** After a race ends the room waits for 30 decrements and starts again: the cycle repeats indefinitely. */
  lemma EndedRoomRestarts(m: Machine, draw: string)
    ensures var n := React(m, RoomEnd, draw).next;
      && !Countdown(n, 30).state.active
      && Countdown(n, 31).state.active
      && Countdown(n, 31).state.track == draw
  {
    var n := React(m, RoomEnd, draw).next;
    CountdownStarts(n);
  }

  /** Once the room has called its empty-room callback no interval is left to tick. */
  lemma NoZombieTicks(m: Machine, u: string, k: nat)
    requires React(m, PlayerLeft(u), "").deleteRoom
    ensures var n := React(m, PlayerLeft(u), "").next;
      !n.countdowner && !n.timer && Countdown(n, k) == n
  {
  }

  class Room {
    const io: Io
    /** The room name the notifier was built with: `io.to(roomName)`. */
    const channel: string
    var state: RoomState
    /** Whether the `countdowner` interval is set. */
    var countdownRunning: bool
    /** Whether the race `timer` interval is set. */
    var timerRunning: bool

    function Snapshot(): Machine
      reads this
    {
      Machine(state, countdownRunning, timerRunning)
    }

    /** The machine is now `r.next`, the log has grown by `r.sent`, and `deleted` reports the callback. */
    twostate predicate Became(r: Reaction, deleted: bool)
      reads this, io
    {
      && Snapshot() == r.next
      && io.log == old(io.log) + Tagged(channel, r.sent)
      && deleted == r.deleteRoom
    }

    /** `new Room(io, givenState)` with `track` from the track service and `name` as the random name. */
    constructor (io: Io, given: PartialState, track: string, name: string)
      modifies io
      ensures this.io == io
      ensures state == Merge(Initial(track, name), given) && channel == state.name
      ensures countdownRunning && !timerRunning
      ensures io.log == old(io.log) + [ToRoom(channel, Announce(RoomCreated))]
    {
      this.io := io;
      var s := Merge(Initial(track, name), given);
      state := s;
      channel := s.name;
      countdownRunning := false;
      timerRunning := false;
      new;
      var _ := Emit(RoomCreated, "");
    }

    /** `emit`: local handlers, then the socket group. */
    method Emit(e: Event, draw: string) returns (deleted: bool)
      modifies this, io
      ensures Became(Broadcast(old(Snapshot()), e, draw), deleted)
    {
      deleted := EmitLocal(e, draw);
      EmitSocket(Announce(e));
    }

    /** `emitLocal`: the room's own handler registered for the event runs; nothing is sent for the event itself. */
    method EmitLocal(e: Event, draw: string) returns (deleted: bool)
      modifies this, io
      decreases Rank(e), 1
      ensures Became(React(old(Snapshot()), e, draw), deleted)
    {
      deleted := false;
      match e
      case RoomCreated => OnCreated();
      case RoomCountdown(n) => OnCountdown(n);
      case RoomStart => OnStart();
      case RoomTime(t) => OnTime(t, draw);
      case RoomEnd => OnEnd(draw);
      case PlayerJoined(u) => OnPlayerJoined(u);
      case PlayerLeft(u) => deleted := OnPlayerLeft(u);
      case PlayerProgress(u, p) => OnPlayerProgress(u, p);
    }

    /** `emitSocket`: one send to the room's group. */
    method EmitSocket(o: Outbound)
      modifies io
      ensures io.log == old(io.log) + [ToRoom(channel, o)]
    {
      io.log := io.log + [ToRoom(channel, o)];
    }

    /** `setState`: a shallow merge. */
    method SetState(changes: PartialState)
      modifies this
      ensures state == Merge(old(state), changes)
      ensures countdownRunning == old(countdownRunning) && timerRunning == old(timerRunning)
    {
      state := Merge(state, changes);
    }

    method StartCountdown()
      modifies this
      ensures countdownRunning
      ensures state == old(state) && timerRunning == old(timerRunning)
    {
      countdownRunning := true;
    }

    /** The countdown interval fires. */
    method TickCountdown()
      requires countdownRunning
      modifies this, io
      ensures Became(CountdownTick(old(Snapshot())), false)
    {
      var _ := EmitLocal(RoomCountdown(state.countdown), "");
    }

    /** The race interval fires; `draw` is the track picked should the race end. */
    method TickRace(draw: string)
      requires timerRunning
      modifies this, io
      ensures Became(RaceTick(old(Snapshot()), draw), false)
    {
      var _ := Emit(RoomTime(state.time), draw);
    }

    method OnCreated()
      modifies this, io
      ensures Became(React(old(Snapshot()), RoomCreated, ""), false)
    {
      StartCountdown();
    }

    method OnCountdown(n: int)
      modifies this, io
      decreases 1, 0
      ensures Became(React(old(Snapshot()), RoomCountdown(n), ""), false)
    {
      if n > 0 {
        SetState(NoChanges.(countdown := Some(n - 1)));
        EmitSocket(Announce(RoomCountdown(state.countdown)));
      } else {
        var _ := EmitLocal(RoomStart, "");
      }
    }

    method OnStart()
      modifies this, io
      ensures Became(React(old(Snapshot()), RoomStart, ""), false)
    {
      countdownRunning := false;
      var progresses := state.progresses;
      var pending := progresses.Keys;
      while pending != {}
        invariant pending <= progresses.Keys == old(state.progresses).Keys
        invariant forall u :: u in progresses && u !in pending ==> progresses[u] == 0
        decreases pending
      {
        var u :| u in pending;
        progresses := progresses[u := 0];
        pending := pending - {u};
      }
      assert progresses == Started(old(state)).progresses;
      SetState(NoChanges.(active := Some(true), progresses := Some(progresses)));
      timerRunning := true;
      EmitSocket(StartOut(state));
    }

    method OnTime(t: int, draw: string)
      modifies this, io
      decreases 1, 0
      ensures Became(React(old(Snapshot()), RoomTime(t), draw), false)
    {
      if t > 0 {
        SetState(NoChanges.(time := Some(t - 1)));
      } else {
        var _ := EmitLocal(RoomEnd, draw);
      }
    }

    method OnEnd(draw: string)
      modifies this, io
      ensures Became(React(old(Snapshot()), RoomEnd, draw), false)
    {
      timerRunning := false;
      var time := TimeBudget(|draw|);
      SetState(NoChanges.(track := Some(draw), time := Some(time), active := Some(false),
                          countdown := Some(RestartCountdown)));
      EmitSocket(EndOut(state.countdown, state.time));
      StartCountdown();
    }

    method OnPlayerJoined(u: string)
      modifies this, io
      ensures Became(React(old(Snapshot()), PlayerJoined(u), ""), false)
    {
      var progresses := state.progresses;
      var disconnected := state.disconnected - {u};
      if u !in progresses {
        progresses := progresses[u := 0];
      }
      SetState(NoChanges.(progresses := Some(progresses), disconnected := Some(disconnected)));
      EmitSocket(JoinedOut(u, state.progresses[u]));
    }

    /** Returns whether `deleteRoom` was called. */
    method OnPlayerLeft(u: string) returns (deleted: bool)
      modifies this, io
      ensures Became(React(old(Snapshot()), PlayerLeft(u), ""), deleted)
    {
      var disconnected := state.disconnected + {u};
      var shouldStop := EveryoneIn(state.progresses.Keys, disconnected);
      if shouldStop {
        Stop();
        return true;
      }
      SetState(NoChanges.(disconnected := Some(disconnected)));
      EmitSocket(Announce(PlayerLeft(u)));
      deleted := false;
    }

    /** `stop`: both intervals are cleared. */
    method Stop()
      modifies this
      ensures !countdownRunning && !timerRunning && state == old(state)
    {
      countdownRunning := false;
      timerRunning := false;
    }

    method OnPlayerProgress(u: string, p: int)
      modifies this, io
      ensures Became(React(old(Snapshot()), PlayerProgress(u, p), ""), false)
    {
      var progresses := state.progresses[u := p];
      SetState(NoChanges.(progresses := Some(progresses)));
    }
  }
}
