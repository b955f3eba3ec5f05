# typeracing, modelled in Dafny

This project models the core of the typeracing server and client: a
multiplayer typing race.

- A **room** (`Room`) counts down, runs a race on a track for a time budget
  derived from the track length, ends it, and restarts the countdown on a
  new track. An event bus drives it: `emit`, `emitLocal` and `emitSocket`.
- A **room registry** (`room.socket.ts`) places each authenticated
  connection in the first room it may join, or creates and records a new
  one. It forgets a room once the room reports that every player is gone.
- An **earlier socket server** (`init.socket.ts`) does the same with
  plain `RaceState` records and one countdown interval per connection.
- A **commentator** picks what to say from a snapshot of a room's state.
  It keeps each finisher's elapsed time and ranks the players.
- The **race page** of the client advances the typing progress only on
  the correct next character. It shows the track split into its completed
  and remaining parts.
- The **track repository** keeps a write-once-per-id cache, filled from
  the storage file and read by id.

Layout, one module per file:

- `wrappers.dfy`: `Option`.
- `room_types.dfy`: the room state, `Partial` updates and their merge, the
  event set, what a room sends, the time budget, and the all-disconnected
  fold.
- `transport.dfy`: the socket server as an append-only log of packets.
- `room_controller.dfy`: the reference function `React`, which says what the
  room's local handler does with one event, plus lemmas about it. The class
  `Room` is proved against `React`: every handler ensures that the room's
  state, its two timers and the socket log became exactly what `React`
  says.
- `room_socket.dfy`: the registry as a class holding an insertion-ordered
  map.
- `init_socket.dfy`: the earlier server as a class.
- `commentator.dfy`: pure message selection and rankings, plus the
  `Commentator` class.
- `race_view.dfy`: the typing rule and `String.prototype.slice`, plus the
  `RaceView` class.
- `tracks_repository.dfy`: the fill as a function, with lemmas, and the
  repository as a class.

Inputs the program gets from outside become parameters:

- `draw` is the text the track service picks at random.
- `random` is a `Math.random()` room name.
- `pick` is the joke index.
- `verified` is what JWT verification made of a token.
- `storage` is the storage file's parsed contents, None when reading or
  parsing fails.
- The `View` is what the commentator's state getter returns.

Where the code and its design description disagree, the model follows the
code:

- A room keeps no `finished` set and never ends a race early.
- From 15 the countdown needs 16 ticks before the race starts: 15
  decrements, then the tick that reads 0.
- The commentator reads fields (`TIME`, `finished`, `name`) that the
  declared `RoomState` type lacks. For that reason its `View` carries them.
- The leaderboard orders finish times descending, as the comparator is
  written.

A random room name may equal an existing one. The model includes that
case: both registries then overwrite the old entry in place, as
`Map.set` and object assignment do.

## Model

| member | source | states |
|---|---|---|
| RoomTypes.Merge | src/server/controllers/room.controller.ts:214-216 | every field listed in the changes takes the new value; every other field keeps its old one |
| RoomTypes.MergeNoChanges | src/server/controllers/room.controller.ts:214-216 | merging no changes leaves the state as it was |
| RoomTypes.TimeBudget | src/server/controllers/room.controller.ts:51-52 | the race time is the least multiple of 10 that is at least the track length |
| RoomTypes.EveryoneIn | src/server/controllers/room.controller.ts:181-183 | the `reduce` over the progress keys yields true exactly when every key is in the disconnected set |
| Transport.Tagged | src/server/controllers/room.controller.ts:32-35 | each send of a room becomes one packet to its group, in order |
| RoomController.Started | src/server/controllers/room.controller.ts:103-119 | the room becomes active; every existing player has progress 0; no key is added or removed; every other field is unchanged |
| RoomController.Ended | src/server/controllers/room.controller.ts:131-149 | inactive, countdown 30, the new track with its time budget; progresses, disconnected and name are untouched |
| RoomController.Joined | src/server/controllers/room.controller.ts:151-171 | u leaves the disconnected set and keeps its progress, or gets 0; nobody else's entry changes |
| RoomController.CountdownStep | src/server/controllers/room.controller.ts:92-101 | for n > 0 the countdown becomes n-1 and exactly that value is broadcast; otherwise only `roomStart` is raised and the countdown is unchanged |
| RoomController.StartResets | src/server/controllers/room.controller.ts:103-119 | `onStart` clears the countdown timer, sets the race timer, zeroes every progress without changing the keys, activates the room and broadcasts its state |
| RoomController.TimeStep | src/server/controllers/room.controller.ts:121-129 | for t > 0 the time becomes t-1 and nothing is sent; otherwise only `roomEnd` is raised |
| RoomController.EndResets | src/server/controllers/room.controller.ts:131-149 | `onEnd` clears the race timer, installs the new track and its time, makes the room inactive with countdown 30, leaves progresses and disconnected alone, restarts the countdown and sends `roomEnd(30, time)` |
| RoomController.JoinKeepsProgress | src/server/controllers/room.controller.ts:151-171 | u is no longer disconnected, its progress is kept or set to 0, the timers are untouched, and `playerJoined(u, progress)` is sent |
| RoomController.LeaveCases | src/server/controllers/room.controller.ts:173-195 | the callback fires exactly when every known player is among the disconnected plus u; then both timers stop, the state is kept and nothing is sent; otherwise u is added to disconnected and `playerLeft(u)` is broadcast |
| RoomController.ProgressVerbatim | src/server/controllers/room.controller.ts:204-212 | the progress is stored verbatim for that player only, and nothing is sent |
| RoomController.LocalBeforeSocket | src/server/controllers/room.controller.ts:20-24 | `emit` runs the local handler before the socket send: on the final race tick `roomEnd` goes out before `roomTime` |
| RoomController.TimersExclusive | src/server/controllers/room.controller.ts:103-149 | after construction, no event leaves both the countdown and the race interval running |
| RoomController.CountdownDecrements | src/server/controllers/room.controller.ts:86-101 | while the countdown is above zero each tick takes one off it and changes nothing else |
| RoomController.CountdownStarts | src/server/controllers/room.controller.ts:86-119 | a countdown from c reaches 0 after c ticks, with the room still inactive, and the next tick starts the race |
| RoomController.CreatedRoomStarts | src/server/controllers/room.controller.ts:51-65 | a new room on a 30-letter track has time 30, countdown 15 and is inactive; it is still waiting after 15 ticks and racing after 16 |
| RoomController.EndedRoomRestarts | src/server/controllers/room.controller.ts:131-149 | after a race ends the room is inactive for 30 ticks and racing on the new track after 31 |
| RoomController.NoZombieTicks | src/server/controllers/room.controller.ts:173-202 | once the empty-room callback has fired no interval runs, so no further tick changes the room |
| RoomController.Initial | src/server/controllers/room.controller.ts:51-63 | the room's state right after construction: the defaults with the track, its time budget and the name merged over them |
| RoomController.React | src/server/controllers/room.controller.ts:82-212 | the reference for the local handlers: for each event, the new state, which timers run, what is sent and whether the empty-room callback fires |
| RoomController.StartReaction | src/server/controllers/room.controller.ts:103-119 | `onStart`: every progress reset to 0, the room active, the countdown timer off and the race timer on, the state broadcast |
| RoomController.EndReaction | src/server/controllers/room.controller.ts:131-149 | `onEnd`: the race timer off, the new track and its time, inactive with countdown 30, the countdown timer on, `roomEnd(30, time)` broadcast |
| RoomController.AllGone | src/server/controllers/room.controller.ts:178-183 | every known player is in the disconnected set or is the one leaving |
| RoomController.Broadcast | src/server/controllers/room.controller.ts:20-24 | `emit`: the local reaction followed by the event itself sent to the group |
| RoomController.CountdownTick | src/server/controllers/room.controller.ts:87-89 | one countdown firing: `emitLocal('roomCountdown', countdown)` |
| RoomController.RaceTick | src/server/controllers/room.controller.ts:114-116 | one race firing: `emit('roomTime', time)` |
| RoomController.Room.constructor | src/server/controllers/room.controller.ts:51-68 | the state is the defaults with the given fields merged over them; the notifier channel is the room's name; `roomCreated` is broadcast and starts the countdown |
| RoomController.Room.Emit | src/server/controllers/room.controller.ts:20-24 | the local reaction, then the event itself to the group |
| RoomController.Room.EmitLocal | src/server/controllers/room.controller.ts:26-30 | the handler registered for the event runs; the outcome is `React` on the room's state and timers |
| RoomController.Room.EmitSocket | src/server/controllers/room.controller.ts:32-35 | exactly one packet to the room's group is appended |
| RoomController.Room.SetState | src/server/controllers/room.controller.ts:214-216 | the state becomes the shallow merge of the changes; the timers are untouched |
| RoomController.Room.StartCountdown | src/server/controllers/room.controller.ts:86-90 | the countdown interval is running; nothing else changes |
| RoomController.Room.TickCountdown | src/server/controllers/room.controller.ts:87-89 | one countdown firing is `emitLocal('roomCountdown', countdown)` |
| RoomController.Room.TickRace | src/server/controllers/room.controller.ts:114-116 | one race firing is `emit('roomTime', time)` |
| RoomController.Room.OnCreated | src/server/controllers/room.controller.ts:82-84 | the countdown interval starts |
| RoomController.Room.OnCountdown | src/server/controllers/room.controller.ts:92-101 | moves the room exactly as `React` does for `roomCountdown(n)` |
| RoomController.Room.OnStart | src/server/controllers/room.controller.ts:103-119 | the loop over the keys zeroes every progress; the room then moves as `React` does for `roomStart` |
| RoomController.Room.OnTime | src/server/controllers/room.controller.ts:121-129 | moves the room exactly as `React` does for `roomTime(t)` |
| RoomController.Room.OnEnd | src/server/controllers/room.controller.ts:131-149 | moves the room exactly as `React` does for `roomEnd` |
| RoomController.Room.OnPlayerJoined | src/server/controllers/room.controller.ts:151-171 | moves the room exactly as `React` does for `playerJoined(u)` |
| RoomController.Room.OnPlayerLeft | src/server/controllers/room.controller.ts:173-195 | moves the room exactly as `React` does for `playerLeft(u)`, and returns whether the callback fired |
| RoomController.Room.Stop | src/server/controllers/room.controller.ts:197-202 | both intervals are cleared and the state is kept |
| RoomController.Room.OnPlayerProgress | src/server/controllers/room.controller.ts:204-212 | moves the room exactly as `React` does for `playerProgress(u, p)` |
| RoomSocket.Eligible | src/server/socket/room.socket.ts:11 | u already has a progress in the room, or the room is not active |
| RoomSocket.Login | src/server/socket/room.socket.ts:43-55 | a login comes out exactly when the token is present and non-empty and verifies to an object that has a `login` |
| RoomSocket.Without | src/server/socket/room.socket.ts:68-72 | deleting a key drops exactly that name from the insertion order, keeps the order distinct, and leaves an order without the name as it was |
| RoomSocket.WithoutAt | src/server/socket/room.socket.ts:68-72 | deleting a name that occurs once leaves the names before it and after it, each in their order |
| RoomSocket.ProxySet | src/server/socket/room.socket.ts:20-24 | a write through the proxy reports success and leaves the room unchanged |
| RoomSocket.Registry.constructor | src/server/socket/room.socket.ts:7 | the registry starts empty |
| RoomSocket.Registry.EligibleFrom | src/server/socket/room.socket.ts:9-17 | the first room, in insertion order, where u has a progress or which is inactive, and None exactly when there is no such room |
| RoomSocket.Registry.EligibleFromIs | src/server/socket/room.socket.ts:9-14 | a room that qualifies, with none before it qualifying, is the one found |
| RoomSocket.Registry.FindRoom | src/server/socket/room.socket.ts:9-17 | the early-return loop returns the first qualifying room, or null exactly when none qualifies |
| RoomSocket.Registry.Record | src/server/socket/room.socket.ts:37-40 | the room is returned and mapped under its name; other entries are unchanged |
| RoomSocket.Registry.Delete | src/server/socket/room.socket.ts:68-72 | exactly the key is removed from the map and from the order |
| RoomSocket.Registry.CreateRoom | src/server/socket/room.socket.ts:31-35 | a fresh room with the default state; the swallowed `room.state = {}` changes nothing |
| RoomSocket.Registry.Place | src/server/socket/room.socket.ts:56 | the found room, with the registry unchanged; otherwise a new room recorded under its name |
| RoomSocket.Registry.Admit | src/server/socket/room.socket.ts:58-61 | the socket joins the room's group, then gets `authSuccess` with the state before the join, then `playerJoined` runs locally |
| RoomSocket.Registry.Connect | src/server/socket/room.socket.ts:42-78 | a rejected handshake gets `authFail` and a disconnect and touches no room; an accepted one is placed and admitted, and the log is spelled out for both placements |
| RoomSocket.Registry.OnProgress | src/server/socket/room.socket.ts:64-66 | the room moves as `emit('playerProgress', u, p)` says |
| RoomSocket.Registry.OnDisconnect | src/server/socket/room.socket.ts:68-72 | `playerLeft` runs locally; the room's name leaves the registry exactly when the room called back |
| InitSocket.FirstFree | src/server/socket/init.socket.ts:95-98 | the position of the first room, in property order, where u has a progress or which is inactive; None exactly when there is none |
| InitSocket.Free | src/server/socket/init.socket.ts:97 | u already has a progress in the room, or the room is not active |
| InitSocket.Destination | src/server/socket/init.socket.ts:95-105 | the name `findRoom` answers: the first free room's key, or the random name |
| InitSocket.SeatBefore | src/server/socket/init.socket.ts:96-115 | the room's state before the join: the free room's, or a fresh one |
| InitSocket.CountdownStep | src/server/socket/init.socket.ts:39-47 | one firing lowers a positive time by one; otherwise it activates the room |
| InitSocket.CountdownDecrements | src/server/socket/init.socket.ts:38-48 | while time remains, k firings take exactly k off the time, change nothing else, and announce the times from the start value downwards, one per firing |
| InitSocket.CountdownRunsOut | src/server/socket/init.socket.ts:39-47 | from time t, any k > t firings leave the room active at time 0 with only the t announcements of the first t firings: the firing after the t-th activates it and clears the interval |
| InitSocket.FreshRaceStarts | src/server/socket/init.socket.ts:38-48 | a fresh room announces 30, 29, ..., 1 and is still inactive at time 0 after 30 firings; the 31st activates it without announcing anything |
| InitSocket.Admitted | src/server/socket/init.socket.ts:33-52 | u leaves the disconnected set, keeps its progress or gets 0; nobody else changes |
| InitSocket.Replies | src/server/socket/init.socket.ts:54-65 | after the join, the subscription answer to the socket and the announcement to the rest of the room; just `checkJWTFailed` when there is no track |
| InitSocket.Connection.constructor | src/server/socket/init.socket.ts:22-23 | a connection starts without session and without interval |
| InitSocket.RaceServer.constructor | src/server/socket/init.socket.ts:7-14 | only the free room "first" exists |
| InitSocket.RaceServer.AddRoom | src/server/socket/init.socket.ts:107-118 | a fresh state under the name, or under the random name when none or an empty one is given; an existing entry is overwritten; the key is returned |
| InitSocket.RaceServer.FindRoom | src/server/socket/init.socket.ts:95-105 | the first free room's name with nothing changed; otherwise a room added under the random name |
| InitSocket.RaceServer.Join | src/server/socket/init.socket.ts:25-69 | a failed verification answers `checkJWTFailed` and changes nothing; otherwise the user is placed as `findRoom` says, admitted, and gets the interval exactly when a newcomer enters a room without players; the answer is spelled out, including the `checkJWTFailed` of a missing track |
| InitSocket.RaceServer.Seat | src/server/socket/init.socket.ts:32-65 | once the room is known: the connection's session, the admission, the interval start rule and the replies |
| InitSocket.RaceServer.CountdownTick | src/server/socket/init.socket.ts:39-47 | above 0 the time is announced to the room and decremented; at 0 the room becomes active, is sent to the socket, and the interval is cleared |
| InitSocket.RaceServer.Disconnect | src/server/socket/init.socket.ts:71-82 | the user is announced and added to disconnected; when every known player is disconnected the room is reset in place under its name |
| InitSocket.RaceServer.ProgressChange | src/server/socket/init.socket.ts:84-88 | the progress is stored verbatim under the given login and relayed to every other socket |
| Commentator.CountdownLine | src/server/controllers/commentator.controller.ts:35-47 | a line for 6, 4 and 2 (each its own), and silence for every other value |
| Commentator.AsEntries | src/server/controllers/commentator.controller.ts:58 | `Object.entries(progresses)` as ranking entries, position by position |
| Commentator.PrecedesIsCompare | src/server/controllers/commentator.controller.ts:148-153 | while neither finish time is 0, a may stay ahead of b exactly when the comparator does not ask to swap them |
| Commentator.Compare | src/server/controllers/commentator.controller.ts:148-153 | the leaderboard comparator as written: when either player has a finish time, the difference of the times with a missing one read as 0, later time first; otherwise the difference of the progresses, more progress first |
| Commentator.Insert | src/server/controllers/commentator.controller.ts:148-153 | inserting keeps every element, adding the new one |
| Commentator.InsertRanked | src/server/controllers/commentator.controller.ts:148-153 | inserting into a ranked sequence keeps it ranked |
| Commentator.Rank | src/server/controllers/commentator.controller.ts:148-153 | the sort yields a ranked permutation of its input |
| Commentator.RankedNoInversion | src/server/controllers/commentator.controller.ts:148-153 | in a ranked sequence no pair is in the order the comparator would swap |
| Commentator.ReportStanding | src/server/controllers/commentator.controller.ts:55-70 | with several players, the best and the second-best by progress; with one, the letters it has left |
| Commentator.ReportLeaders | src/server/controllers/commentator.controller.ts:58-59 | the first two of the progress ranking are the best and the best of the rest |
| Commentator.TimeLines | src/server/controllers/commentator.controller.ts:53-76 | the exact lines: the report of the elapsed time and the standing when `time != TIME` and 30 divides `TIME - time` in a non-empty room, then "running out" at 2 seconds; nothing at all when a report is due in an empty room (the handler throws) |
| Commentator.TimeLinesSaid | src/server/controllers/commentator.controller.ts:53-76 | at most two lines; "running out" is said exactly at 2 seconds unless the handler throws, and only last; a report exactly when one is due in a non-empty room, and only first; no other line |
| Commentator.ProgressOf | src/server/controllers/commentator.controller.ts:84-91 | `progresses[u]`: the stored progress, None exactly when u has none |
| Commentator.JoinLine | src/server/controllers/commentator.controller.ts:78-96 | a greeting when inactive; during a race a non-zero progress gets the medal line (finished) or the score line; otherwise silence |
| Commentator.Started | src/server/controllers/commentator.controller.ts:104-105 | the count of the players whose progress is not 0, at most the number of players, and 0 exactly when all are at 0 |
| Commentator.ApproachDistance | src/server/controllers/commentator.controller.ts:130 | 30 for tracks over 90 letters, otherwise the floor of a third |
| Commentator.OpeningLines | src/server/controllers/commentator.controller.ts:102-111 | a first keystroke (progress at most 1) gets "starts first" exactly when several race and exactly one has a non-zero progress, and "what a start" exactly when one races; nothing else |
| Commentator.Place | src/server/controllers/commentator.controller.ts:122-124 | the place word is the size of the room's finished set, present exactly while that is at most 3 |
| Commentator.FinishLines | src/server/controllers/commentator.controller.ts:113-127 | the finish line is said exactly when u reaches the track's end while the players outnumber the recorded finishers plus the disconnected, and it carries that place |
| Commentator.ApproachLines | src/server/controllers/commentator.controller.ts:129-136 | a line exactly at the approach distance from the finish: "approaching" when several race, "almost there" otherwise |
| Commentator.Standings | src/server/controllers/commentator.controller.ts:142-147 | the connected players' entries with their recorded finish times, and nobody else; exactly one entry per connected player |
| Commentator.Leaderboard | src/server/controllers/commentator.controller.ts:142-153 | a permutation of the connected players' standings, with no disconnected player and no pair the comparator would swap |
| Commentator.LeaderboardByProgress | src/server/controllers/commentator.controller.ts:148-153 | without finish times the leaderboard is by progress, best first |
| Commentator.FinishersFirst | src/server/controllers/commentator.controller.ts:148-153 | every finisher with a positive time ranks ahead of every player without one |
| Commentator.ResultsLine | src/server/controllers/commentator.controller.ts:155-164 | the podium is the first three of the leaderboard; nothing when the leaderboard is empty (the handler throws) |
| Commentator.Commentator.constructor | src/server/controllers/commentator.controller.ts:16-22 | the room name is read once from the state; no finish times; nothing said |
| Commentator.Commentator.Say | src/server/controllers/commentator.controller.ts:181-188 | the line goes to the room and the joke timeout is armed again |
| Commentator.Commentator.SayAll | src/server/controllers/commentator.controller.ts:181-188 | the lines are said in order; the timeout is armed if anything was said |
| Commentator.Commentator.OnCountdown | src/server/controllers/commentator.controller.ts:35-47 | says `CountdownLine`, if any |
| Commentator.Commentator.OnStart | src/server/controllers/commentator.controller.ts:49-51 | says "Go!" |
| Commentator.Commentator.OnTime | src/server/controllers/commentator.controller.ts:53-76 | says `TimeLines` |
| Commentator.Commentator.OnPlayerJoined | src/server/controllers/commentator.controller.ts:78-96 | says `JoinLine`, if any |
| Commentator.Commentator.OnPlayerProgress | src/server/controllers/commentator.controller.ts:98-137 | says the opening lines, then records the elapsed `TIME - time` for u when it reaches the track's end, then says the finish lines against the new count and the approach lines |
| Commentator.Commentator.OnEnd | src/server/controllers/commentator.controller.ts:139-165 | says the results of the recorded finish times |
| Commentator.Commentator.OnJoke | src/server/controllers/commentator.controller.ts:170-179 | says the picked joke and re-arms the timeout |
| RaceView.SliceBound | src/client/src/scripts/views/race.view.ts:119-120 | a slice bound counted from the end when negative, clamped to the string |
| RaceView.Slice | src/client/src/scripts/views/race.view.ts:119-120 | `slice` agrees with the substring for in-range bounds and is empty when the bounds cross |
| RaceView.Completed | src/client/src/scripts/views/race.view.ts:145 | the completed part: `track.slice(0, progress)`, or empty when the progress is 0 or undefined |
| RaceView.Remaining | src/client/src/scripts/views/race.view.ts:146 | the remaining part: `track.slice(progress, track.length)` |
| RaceView.SplitJoins | src/client/src/scripts/views/race.view.ts:143-146 | for any progress, the completed part followed by the remaining part is the whole track |
| RaceView.SplitAtProgress | src/client/src/scripts/views/race.view.ts:117-120 | within the track, exactly the first `progress` characters are completed |
| RaceView.Split | src/client/src/scripts/views/race.view.ts:143-146 | the drawn track: its two parts join back into the track, split exactly at a progress within it |
| RaceView.Matches | src/client/src/scripts/views/race.view.ts:105 | the key is the track's character at the current progress |
| RaceView.Keystroke | src/client/src/scripts/views/race.view.ts:100-110 | the correct next character moves progress on by one; any other key changes nothing; a progress within the track stays within it |
| RaceView.TypingStaysWithinTrack | src/client/src/scripts/views/race.view.ts:105 | whatever is typed, the progress never decreases and never passes the track's length |
| RaceView.TypingTheRestCompletes | src/client/src/scripts/views/race.view.ts:105-110 | typing the rest of the track one character at a time completes it |
| RaceView.ScreenAfterSubscribe | src/client/src/scripts/views/race.view.ts:72-76 | the countdown is shown exactly while waiting with a non-zero countdown; otherwise the track, split so it joins back |
| RaceView.RaceView.constructor | src/client/src/scripts/views/race.view.ts:15-21 | the initial state: empty track, progress 0, waiting, countdown 30 |
| RaceView.RaceView.ShowTrack | src/client/src/scripts/views/race.view.ts:139-158 | the track is shown split at the progress, the keypress listener is on, and the state is unchanged |
| RaceView.RaceView.OnSubscribeResponse | src/client/src/scripts/views/race.view.ts:54-78 | the track, name, stored progress, `waiting = !active` and countdown are copied; then the countdown or the track is shown |
| RaceView.RaceView.OnCountdown | src/client/src/scripts/views/race.view.ts:88-91 | the countdown is copied into the state and onto a shown countdown |
| RaceView.RaceView.OnRoomStart | src/client/src/scripts/views/race.view.ts:93-95 | the track is shown |
| RaceView.RaceView.OnTrackKeystroke | src/client/src/scripts/views/race.view.ts:100-124 | on a match, progress moves on by one, the incremented progress is sent, and the split is redrawn if the track is on screen (otherwise the redraw throws and the countdown stays); any other key changes nothing and sends nothing |
| TracksRepository.Offer | src/server/repository/tracks.repository.ts:18-20 | a track is cached under its id unless that id is already cached |
| TracksRepository.Fill | src/server/repository/tracks.repository.ts:17-21 | the loop over the parsed tracks, offering each in file order |
| TracksRepository.FindById | src/server/repository/tracks.repository.ts:36 | the first track with the id, None exactly when there is none |
| TracksRepository.FillKeeps | src/server/repository/tracks.repository.ts:17-21 | a fill never removes or replaces a cached entry |
| TracksRepository.FillKeys | src/server/repository/tracks.repository.ts:17-21 | after a fill the cache holds its old ids plus the ids of the tracks, and no others |
| TracksRepository.FillFirstWins | src/server/repository/tracks.repository.ts:17-21 | an id not cached before gets the first track in the file with that id |
| TracksRepository.FillConsistent | src/server/repository/tracks.repository.ts:17-21 | every cached track stays under its own id |
| TracksRepository.TrackRepository.constructor | src/server/repository/tracks.repository.ts:10 | the cache starts empty |
| TracksRepository.TrackRepository.GetAll | src/server/repository/tracks.repository.ts:12-29 | one read; on failure `[]` with the cache unchanged; otherwise the tracks as parsed and the cache filled by the loop |
| TracksRepository.TrackRepository.GetById | src/server/repository/tracks.repository.ts:31-39 | a cached id is answered without reading; otherwise the first match of a fresh read, or None; a found track is the one the cache then holds |

## Left out

- Socket.IO delivery: `io.to(...).emit`, `socket.join` and `socket.disconnect` become packets appended to a log. There is no network, acknowledgement or ordering between clients.
- Timers: `setInterval`, `clearInterval` and `setTimeout` become "running" booleans, and each firing is an explicit method. The model does not capture wall-clock time or interleaving.
- The model does not capture an interval that leaks because it is overwritten without being cleared.
- The commentator's joke timer is a single "armed" flag.
- The event bus `on`: each `Room` registers each of its eight handlers exactly once at construction. `EmitLocal` therefore dispatches through a fixed `match`. Arbitrary extra listeners are not modelled.
- Aliasing of the `progresses` object: the room mutates it in place, but it is also held by states already sent or shared. The model treats state as values, so later mutations are not visible through earlier copies.
- JWT verification and the passport, route, user-repository, index and other client-view files are outside the model. Verification is the input `Verified` or `verified`.
- `getRandomTrack` and the track service: the track text is a caller-supplied `draw`. That the service returns a Promise whose `.text` is read directly is not reproduced.
- Message text: commentator lines are tags carrying their payloads. HTML formatting is not modelled, and neither is the fact that place word 0 renders as "undefined".
- Commentator.Leaderboard: ties are resolved by a sort key that agrees with the comparator whenever every finish time is positive. A finish time of 0 makes the comparator inconsistent. It ties that player with every player who has no finish time, and with every other 0, while it still orders the players without a time by progress. The model's order is then one in which no pair is in the order the comparator would swap. It does not reproduce the engine's particular outcome.
- `Object.entries` order: entries are in insertion order. JavaScript lists integer-like keys first, and that is not modelled.
- A token whose payload has no `login` in `init.socket.ts` is not modelled. The program would let it join under the key "undefined".
- `init.socket.ts` keeps `roomName` in a variable shared by all connections. The model keeps it per connection, so interference between connections through that variable is not captured.
- InitSocket.RaceServer.Disconnect: before any accepted handshake, the server sends `playerDisconnected` to an undefined room and then throws. The model treats this as no effect.
- InitSocket.RaceServer.ProgressChange: before any accepted handshake the handler throws on `races[undefined]`, because the `progressChange` listener is registered before `checkJWT` has set `roomName`. The model treats this as no effect.
- RoomController.TimersExclusive: it excludes `roomCreated`, because that event is raised only by the constructor, before either timer runs.
- `Commentator.onCreated` and `onPlayerLeft` do nothing and are not modelled.
- The Proxy `has` trap is not modelled; it has no behaviour of its own.
- The DOM work of the race page is not modelled: the player list, `addPlayer`, `updatePlayer` and `clearRoot`.
- Redirects to the login page are not modelled.
- The race page reads `countdown` from the `subscribeResponse` state, but `init.socket.ts` sends a `RaceState`, which has no `countdown`. Through that server the value is undefined and the page always shows the track. RaceView.RaceView.OnSubscribeResponse takes the countdown as a parameter, so its countdown branch is reachable in the model but not from that server.
- Strings are sequences of characters. JavaScript's `length`, indexing and `e.key` count UTF-16 code units, so a track with characters outside the Basic Multilingual Plane is measured and split differently. RaceView.TypingTheRestCompletes, RoomTypes.TimeBudget and Commentator.ApproachDistance hold for the model's character count, not the UTF-16 one.
- Player names are map keys. The checks `progresses[u] !== undefined` in `room.socket.ts:11`, `init.socket.ts:36` and `init.socket.ts:97`, and the lookup in `room.controller.ts:159`, read inherited properties too: for a name such as "constructor" or "toString" they see a value where the map has none. RoomSocket.Eligible, InitSocket.Free, InitSocket.Admitted and RoomController.Joined follow the map and do not reproduce this.
