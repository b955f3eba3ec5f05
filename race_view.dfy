/**
 * The race page of the client: the typing rule (progress moves only on the
 * correct next character), the split of the track into its completed and
 * remaining parts, and the reaction to the server's subscription answer.
 */
module RaceView {
  import opened Wrappers

  /**
   * The view's state. `progress` is None when the server's answer had no
   * progress for this user (`undefined` in the page).
   */
  datatype ViewState = ViewState(track: string, progress: Option<int>, username: string, waiting: bool, countdown: int)

  const InitialState := ViewState("", Some(0), "", true, 30)

  /** What the placeholder shows. */
  datatype Screen =
    | Empty
    | CountdownShown(countdown: int)
    | TrackShown(completed: string, remaining: string)

  /** The `progressChange` message: the user and the progress after the keystroke. */
  datatype ProgressChange = ProgressChange(username: string, progress: int)

  /** A slice bound as `String.prototype.slice` resolves it: from the end when negative, clamped to [0, n]. */
  function SliceBound(i: int, n: nat): (c: nat)
    ensures c <= n
    ensures 0 <= i <= n ==> c == i
    ensures i > n ==> c == n
    ensures i < 0 ==> c == (if n + i < 0 then 0 else n + i)
  {
    if i < 0 then (if n + i < 0 then 0 else n + i)
    else if i > n then n
    else i
  }

  /** `s.slice(start, end)`; empty when the resolved end is before the resolved start. */
  function Slice(s: string, start: int, end: int): (r: string)
    ensures |r| <= |s|
    ensures 0 <= start <= end <= |s| ==> r == s[start..end]
    ensures SliceBound(end, |s|) <= SliceBound(start, |s|) ==> r == ""
  {
    var from := SliceBound(start, |s|);
    var to := SliceBound(end, |s|);
    if to <= from then "" else s[from..to]
  }

  /** The completed part: `progress ? track.slice(0, progress) : ''`. */
  function Completed(track: string, progress: Option<int>): string {
    if progress.None? || progress.value == 0 then "" else Slice(track, 0, progress.value)
  }

  /** The remaining part: `track.slice(progress, track.length)`; an undefined start is 0. */
  function Remaining(track: string, progress: Option<int>): string {
    Slice(track, progress.GetOr(0), |track|)
  }

  /** Whatever the progress, the completed part followed by the remaining part is the whole track. */
  lemma SplitJoins(track: string, progress: Option<int>)
    ensures Completed(track, progress) + Remaining(track, progress) == track
  {
    var p := progress.GetOr(0);
    var k := SliceBound(p, |track|);
    assert Completed(track, progress) == track[..k];
    assert Remaining(track, progress) == track[k..];
    assert track[..k] + track[k..] == track;
  }

  /** Within the track the split is at the progress: exactly the first `progress` characters are completed. */
  lemma SplitAtProgress(track: string, p: int)
    requires 0 <= p <= |track|
    ensures Completed(track, Some(p)) == track[..p] && Remaining(track, Some(p)) == track[p..]
  {
  }

  /** The track as `showTrack` and the keystroke handler draw it: its completed and remaining parts. */
  function Split(track: string, progress: Option<int>): (r: Screen)
    ensures r.TrackShown? && r.completed + r.remaining == track
    ensures progress.Some? && 0 <= progress.value <= |track| ==>
      r.completed == track[..progress.value] && r.remaining == track[progress.value..]
  {
    SplitJoins(track, progress);
    assert progress.Some? && 0 <= progress.value <= |track| ==>
      Completed(track, progress) == track[..progress.value] && Remaining(track, progress) == track[progress.value..]
    by {
      if progress.Some? && 0 <= progress.value <= |track| {
        SplitAtProgress(track, progress.value);
      }
    }
    TrackShown(Completed(track, progress), Remaining(track, progress))
  }

  /** `e.key === track[progress]`: only the one-character key equal to the next character of the track. */
  predicate Matches(s: ViewState, key: string) {
    s.progress.Some? && 0 <= s.progress.value < |s.track| && key == [s.track[s.progress.value]]
  }

  /** The state after a keystroke: the progress moves one forward on a match, and nothing changes otherwise. */
  function Keystroke(s: ViewState, key: string): (r: ViewState)
    ensures Matches(s, key) ==> r == s.(progress := Some(s.progress.value + 1))
    ensures !Matches(s, key) ==> r == s
    ensures r.progress.Some? && s.progress.Some? && 0 <= s.progress.value <= |s.track| ==>
      s.progress.value <= r.progress.value <= |s.track|
  {
    if Matches(s, key) then s.(progress := Some(s.progress.value + 1)) else s
  }

  /** The state after a run of keystrokes. */
  function Typed(s: ViewState, keys: seq<string>): ViewState
    decreases |keys|
  {
    if keys == [] then s else Typed(Keystroke(s, keys[0]), keys[1..])
  }

  /** The keys that type `t` from position i on, one character each. */
  function KeysOf(t: string, i: nat): (keys: seq<string>)
    requires i <= |t|
    ensures |keys| == |t| - i
    ensures forall j :: 0 <= j < |keys| ==> keys[j] == [t[i + j]]
    decreases |t| - i
  {
    if i == |t| then [] else [[t[i]]] + KeysOf(t, i + 1)
  }

  /** However the user types, a progress within the track stays within it, and the track never changes. */
  lemma {:induction false} TypingStaysWithinTrack(s: ViewState, keys: seq<string>)
    requires s.progress.Some? && 0 <= s.progress.value <= |s.track|
    ensures Typed(s, keys).track == s.track && Typed(s, keys).progress.Some?
    ensures s.progress.value <= Typed(s, keys).progress.value <= |s.track|
    decreases |keys|
  {
    if keys != [] {
      TypingStaysWithinTrack(Keystroke(s, keys[0]), keys[1..]);
    }
  }

  /** Typing the rest of the track correctly completes it, one character per key. */
  lemma {:induction false} TypingTheRestCompletes(s: ViewState)
    requires s.progress.Some? && 0 <= s.progress.value <= |s.track|
    ensures Typed(s, KeysOf(s.track, s.progress.value)) == s.(progress := Some(|s.track|))
    decreases |s.track| - s.progress.value
  {
    var p := s.progress.value;
    if p < |s.track| {
      var keys := KeysOf(s.track, p);
      assert keys[0] == [s.track[p]];
      assert Matches(s, keys[0]);
      var next := Keystroke(s, keys[0]);
      assert keys[1..] == KeysOf(s.track, p + 1);
      TypingTheRestCompletes(next);
    }
  }

  /** `waiting = !active`, and the countdown is shown only while waiting with a non-zero countdown. */
  function ScreenAfterSubscribe(s: ViewState): (r: Screen)
    ensures r.CountdownShown? <==> s.waiting && s.countdown != 0
    ensures r.CountdownShown? ==> r.countdown == s.countdown
    ensures r.TrackShown? ==> r.completed + r.remaining == s.track
  {
    if s.waiting && s.countdown != 0 then CountdownShown(s.countdown)
    else Split(s.track, s.progress)
  }

  class RaceView {
    var state: ViewState
    var screen: Screen
    /** Whether the keypress listener has been added (it is added when the track is first shown). */
    var listening: bool
    /** The `progressChange` messages sent to the server. */
    var sent: seq<ProgressChange>

    constructor ()
      ensures state == InitialState && screen == Empty && !listening && sent == []
    {
      state := InitialState;
      screen := Empty;
      listening := false;
      sent := [];
    }

    /** `showTrack`: the completed and remaining parts, and the keypress listener. */
    method ShowTrack()
      modifies this
      ensures state == old(state) && sent == old(sent) && listening
      ensures screen == Split(state.track, state.progress)
    {
      screen := Split(state.track, state.progress);
      listening := true;
    }

    /**
     * `onSubscribeResponse`: the user's name, the track, the progress stored
     * for the user, `waiting = !active` and the room's countdown; then the
     * countdown or the track.
     */
    method OnSubscribeResponse(username: string, track: string, active: bool, countdown: int,
                               progresses: map<string, int>)
      modifies this
      ensures state == ViewState(track, if username in progresses then Some(progresses[username]) else None,
                                 username, !active, countdown)
      ensures screen == ScreenAfterSubscribe(state)
      ensures listening == (old(listening) || screen.TrackShown?)
      ensures sent == old(sent)
    {
      state := ViewState(track, if username in progresses then Some(progresses[username]) else None,
                         username, !active, countdown);
      if state.waiting && state.countdown != 0 {
        screen := CountdownShown(state.countdown);
      } else {
        ShowTrack();
      }
    }

    /** `onCountdown`: the countdown is copied into the state. */
    method OnCountdown(countdown: int)
      modifies this
      ensures state == old(state).(countdown := countdown)
      ensures screen == (if old(screen).CountdownShown? then CountdownShown(countdown) else old(screen))
      ensures listening == old(listening) && sent == old(sent)
    {
      state := state.(countdown := countdown);
      if screen.CountdownShown? {
        screen := CountdownShown(countdown);
      }
    }

    /** `onRoomStart`: the track is shown. */
    method OnRoomStart()
      modifies this
      ensures state == old(state) && sent == old(sent) && listening
      ensures screen == Split(state.track, state.progress)
    {
      ShowTrack();
    }

    /**
     * A keypress, once the listener is there: on the correct next character
     * the progress moves one forward, the new progress is sent, and the split
     * is redrawn; any other key changes nothing and sends nothing. The
     * listener stays on when a later subscription answer shows the countdown,
     * which removes the `track` element: the redraw then throws after the
     * send, so the screen keeps the countdown.
     */
    method OnTrackKeystroke(key: string)
      modifies this
      ensures !old(listening) ==> state == old(state) && screen == old(screen) && sent == old(sent)
      ensures old(listening) ==> state == Keystroke(old(state), key)
      ensures old(listening) && Matches(old(state), key) ==>
        && sent == old(sent) + [ProgressChange(state.username, state.progress.value)]
        && screen == (if old(screen).TrackShown?
                      then TrackShown(state.track[..state.progress.value], state.track[state.progress.value..])
                      else old(screen))
      ensures old(listening) && !Matches(old(state), key) ==> screen == old(screen) && sent == old(sent)
      ensures listening == old(listening)
    {
      if !listening || !Matches(state, key) {
        return;
      }
      state := state.(progress := Some(state.progress.value + 1));
      sent := sent + [ProgressChange(state.username, state.progress.value)];
      if screen.TrackShown? {
        screen := Split(state.track, state.progress);
      }
    }
  }
}
