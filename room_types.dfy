/**
 * The shared vocabulary of a race room: its state record, the partial
 * updates `setState` merges into it, the closed set of room events and what
 * a room sends to its socket group.
 */
module RoomTypes {
  import opened Wrappers

  /** The fields of a room's state that the room controller reads and writes. */
  datatype RoomState = RoomState(
    track: string,
    time: int,
    name: string,
    active: bool,
    countdown: int,
    progresses: map<string, int>,
    disconnected: set<string>)

  /** A `Partial<RoomState>`: every field may be left out. */
  datatype PartialState = PartialState(
    track: Option<string>,
    time: Option<int>,
    name: Option<string>,
    active: Option<bool>,
    countdown: Option<int>,
    progresses: Option<map<string, int>>,
    disconnected: Option<set<string>>)

  const NoChanges := PartialState(None, None, None, None, None, None, None)

  /** The object spread `{ ...s, ...c }`: a field listed in `c` takes its value, every other keeps its own. */
  function Merge(s: RoomState, c: PartialState): (r: RoomState)
    ensures c.track.Some? ==> r.track == c.track.value
    ensures c.track.None? ==> r.track == s.track
    ensures c.time.Some? ==> r.time == c.time.value
    ensures c.time.None? ==> r.time == s.time
    ensures c.name.Some? ==> r.name == c.name.value
    ensures c.name.None? ==> r.name == s.name
    ensures c.active.Some? ==> r.active == c.active.value
    ensures c.active.None? ==> r.active == s.active
    ensures c.countdown.Some? ==> r.countdown == c.countdown.value
    ensures c.countdown.None? ==> r.countdown == s.countdown
    ensures c.progresses.Some? ==> r.progresses == c.progresses.value
    ensures c.progresses.None? ==> r.progresses == s.progresses
    ensures c.disconnected.Some? ==> r.disconnected == c.disconnected.value
    ensures c.disconnected.None? ==> r.disconnected == s.disconnected
  {
    RoomState(
      c.track.GetOr(s.track),
      c.time.GetOr(s.time),
      c.name.GetOr(s.name),
      c.active.GetOr(s.active),
      c.countdown.GetOr(s.countdown),
      c.progresses.GetOr(s.progresses),
      c.disconnected.GetOr(s.disconnected))
  }

  /** Merging nothing changes nothing. */
  lemma MergeNoChanges(s: RoomState)
    ensures Merge(s, NoChanges) == s
  {
  }

  /** `Math.ceil(length / 10) * 10`: the least multiple of ten that is at least `length`. */
  function TimeBudget(length: nat): (t: nat)
    ensures t % 10 == 0
    ensures length <= t < length + 10
  {
    (length + 9) / 10 * 10
  }

  /** The closed set of room events, each with the arguments it is emitted with. */
  datatype Event =
    | RoomCreated
    | RoomCountdown(countdown: int)
    | RoomStart
    | RoomTime(time: int)
    | RoomEnd
    | PlayerJoined(username: string)
    | PlayerLeft(username: string)
    | PlayerProgress(username: string, progress: int)

  /**
   * What a room sends to its socket group. `Announce(e)` forwards `e` with the
   * arguments it carried locally; the other three are the sends whose payload
   * differs from the local event's.
   */
  datatype Outbound =
    | Announce(event: Event)
    | StartOut(state: RoomState)
    | EndOut(countdown: int, time: int)
    | JoinedOut(username: string, progress: int)

  /**
   * The fold `keys.reduce((should, k) => should && gone.has(k), true)`
   * (and its `forEach` twin): whether every key is among `gone`.
   */
  method EveryoneIn(keys: set<string>, gone: set<string>) returns (all: bool)
    ensures all <==> keys <= gone
  {
    all := true;
    var pending := keys;
    while pending != {}
      invariant pending <= keys
      invariant all <==> keys - pending <= gone
      decreases pending
    {
      var k :| k in pending;
      all := all && k in gone;
      pending := pending - {k};
    }
  }
}
