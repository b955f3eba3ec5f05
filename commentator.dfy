/**
 * The race commentator: on each room event it picks what to say from a
 * snapshot of the room's state, keeps the elapsed time of every player that
 * finished, and re-arms its joke timer whenever it speaks. Messages are
 * modelled as tags carrying their payloads, not as formatted text.
 */
module Commentator {
  import opened Wrappers

  /**
   * What the state getter returns: the fields the commentator reads. `total`
   * is the race length `TIME`, `time` the seconds left, and `progresses` the
   * entries of the progress object in property order.
   */
  datatype View = View(
    name: string,
    active: bool,
    total: int,
    time: int,
    track: string,
    progresses: seq<(string, int)>,
    disconnected: set<string>,
    finished: set<string>)

  /** A player in a ranking: the name, the progress and the finish time, if one was recorded. */
  datatype Entry = Entry(name: string, progress: int, finish: Option<int>)

  /** The body of a 30-second report. */
  datatype Standing =
    | Leaders(first: Entry, second: Entry)   // more than one player
    | DistanceLeft(letters: int)             // a single player

  datatype Line =
    | PrepareKeyboards
    | Ready
    | Steady
    | Go
    | Report(elapsed: int, standing: Standing)
    | RunningOut
    | Greeting
    | Medal(player: string)
    | Score(player: string, progress: int)
    | StartsFirst(player: string)
    | WhatAStart
    | Finished(player: string, place: Option<int>)
    | Approaching(player: string)
    | AlmostThere
    | Results(podium: seq<Entry>)            // 1 entry: "Congratulations", 2: "Great job", 3: the full podium
    | Joke(index: nat)

  /** The number of jokes in the repertoire. */
  const JokeCount := 4

  /** `onCountdown`: a line for 6, 4 and 2, silence for every other value. */
  function CountdownLine(countdown: int): (r: Option<Line>)
    ensures r.Some? <==> countdown == 6 || countdown == 4 || countdown == 2
    ensures r == Some(PrepareKeyboards) <==> countdown == 6
    ensures r == Some(Ready) <==> countdown == 4
    ensures r == Some(Steady) <==> countdown == 2
  {
    if countdown == 6 then Some(PrepareKeyboards)
    else if countdown == 4 then Some(Ready)
    else if countdown == 2 then Some(Steady)
    else None
  }

  // ---------------------------------------------------------------------------
  // Rankings

  /** The progress entries as ranking entries without finish times. */
  function AsEntries(ps: seq<(string, int)>): (es: seq<Entry>)
    ensures |es| == |ps|
    ensures forall i :: 0 <= i < |ps| ==> es[i] == Entry(ps[i].0, ps[i].1, None)
    ensures forall e :: e in es ==> e.finish.None?
  {
    if ps == [] then [] else [Entry(ps[0].0, ps[0].1, None)] + AsEntries(ps[1..])
  }

  /**
   * The order both sorts produce, as a key: finish time first (a missing
   * time counts as 0), and progress only between players without a time.
   */
  function Key(e: Entry): (int, int) {
    (e.finish.GetOr(0), if e.finish.None? then e.progress else 0)
  }

  /** a may stay ahead of b: its key is at least b's, lexicographically. */
  predicate Precedes(a: Entry, b: Entry) {
    Key(a).0 > Key(b).0 || (Key(a).0 == Key(b).0 && Key(a).1 >= Key(b).1)
  }

  predicate Ranked(s: seq<Entry>) {
    forall i, j :: 0 <= i < j < |s| ==> Precedes(s[i], s[j])
  }

  /** x placed after every entry that precedes it (so equal keys keep their order). */
  function Insert(x: Entry, s: seq<Entry>): (r: seq<Entry>)
    ensures multiset(r) == multiset(s) + multiset{x} && |r| == |s| + 1
  {
    if s == [] then [x]
    else if Precedes(s[0], x) then
      assert s == [s[0]] + s[1..];
      [s[0]] + Insert(x, s[1..])
    else [x] + s
  }

  /** Every entry of s may stay behind a. */
  predicate Bounds(a: Entry, s: seq<Entry>) {
    forall k :: 0 <= k < |s| ==> Precedes(a, s[k])
  }

  /** Precedes is transitive: the keys are compared lexicographically. */
  lemma PrecedesTrans(a: Entry, b: Entry, c: Entry)
    requires Precedes(a, b) && Precedes(b, c)
    ensures Precedes(a, c)
  {
  }

  /** A sequence headed by a is ranked exactly when its tail is ranked and bounded by a. */
  lemma RankedCons(a: Entry, s: seq<Entry>)
    ensures Ranked([a] + s) <==> Bounds(a, s) && Ranked(s)
  {
    var r := [a] + s;
    if Bounds(a, s) && Ranked(s) {
      forall i, j | 0 <= i < j < |r|
        ensures Precedes(r[i], r[j])
      {
        assert r[j] == s[j - 1];
        if i > 0 {
          assert r[i] == s[i - 1];
        }
      }
    }
    if Ranked(r) {
      forall k | 0 <= k < |s|
        ensures Precedes(a, s[k])
      {
        assert r[0] == a && r[k + 1] == s[k];
        assert Precedes(r[0], r[k + 1]);
      }
      forall i, j | 0 <= i < j < |s|
        ensures Precedes(s[i], s[j])
      {
        assert r[i + 1] == s[i] && r[j + 1] == s[j];
      }
    }
  }

  /** An entry that a bounds stays bounded by a after an insertion. */
  lemma {:induction false} InsertBounded(a: Entry, x: Entry, s: seq<Entry>)
    requires Bounds(a, s) && Precedes(a, x)
    ensures Bounds(a, Insert(x, s))
  {
    if s != [] && Precedes(s[0], x) {
      var rest := Insert(x, s[1..]);
      assert Bounds(a, s[1..]) by {
        forall k | 0 <= k < |s[1..]|
          ensures Precedes(a, s[1..][k])
        {
          assert s[1..][k] == s[k + 1];
        }
      }
      InsertBounded(a, x, s[1..]);
      var r := [s[0]] + rest;
      forall k | 0 <= k < |r|
        ensures Precedes(a, r[k])
      {
        if k > 0 {
          assert r[k] == rest[k - 1];
        }
      }
    } else if s != [] {
      var r := [x] + s;
      forall k | 0 <= k < |r|
        ensures Precedes(a, r[k])
      {
        if k > 0 {
          assert r[k] == s[k - 1];
        }
      }
    }
  }

  /** Inserting into a ranked sequence keeps it ranked. */
  lemma {:induction false} InsertRanked(x: Entry, s: seq<Entry>)
    requires Ranked(s)
    ensures Ranked(Insert(x, s))
  {
    if s != [] {
      assert s == [s[0]] + s[1..];
      RankedCons(s[0], s[1..]);
      if Precedes(s[0], x) {
        InsertRanked(x, s[1..]);
        InsertBounded(s[0], x, s[1..]);
        RankedCons(s[0], Insert(x, s[1..]));
      } else {
        forall k | 0 <= k < |s|
          ensures Precedes(x, s[k])
        {
          if k > 0 {
            PrecedesTrans(x, s[0], s[k]);
          }
        }
        RankedCons(x, s);
      }
    }
  }

  /** The stable sort of the two comparators of the commentator, by insertion. */
  function Rank(s: seq<Entry>): (r: seq<Entry>)
    ensures Ranked(r) && multiset(r) == multiset(s) && |r| == |s|
  {
    if s == [] then []
    else
      assert s == s[..|s| - 1] + [s[|s| - 1]];
      var r := Rank(s[..|s| - 1]);
      InsertRanked(s[|s| - 1], r);
      Insert(s[|s| - 1], r)
  }

  /**
   * The comparator of the leaderboard sort: positive when b belongs ahead
   * of a. When neither has a finish time it is the comparator of the report
   * sort, `b.progress - a.progress`.
   */
  function Compare(a: Entry, b: Entry): int {
    if a.finish.Some? || b.finish.Some? then b.finish.GetOr(0) - a.finish.GetOr(0)
    else b.progress - a.progress
  }

  /**
   * While no finish time is 0, the key order is the comparator's: a may stay
   * ahead of b exactly when the comparator does not ask to swap them.
   */
  lemma PrecedesIsCompare(a: Entry, b: Entry)
    requires a.finish.None? || a.finish.value > 0
    requires b.finish.None? || b.finish.value > 0
    ensures Precedes(a, b) <==> Compare(a, b) <= 0
  {
  }

  /** A ranked sequence has no pair the leaderboard comparator would swap. */
  lemma RankedNoInversion(s: seq<Entry>)
    requires Ranked(s)
    ensures forall i, j :: 0 <= i < j < |s| ==> Compare(s[i], s[j]) <= 0
  {
    forall i, j | 0 <= i < j < |s|
      ensures Compare(s[i], s[j]) <= 0
    {
      assert Precedes(s[i], s[j]);
    }
  }

  // ---------------------------------------------------------------------------
  // onTime

  /** A report is due when some multiple of 30 seconds (but not zero) has elapsed. */
  predicate ReportDue(v: View, time: int) {
    // JavaScript's `%` truncates, but `(TIME - time) % 30` is zero exactly when 30 divides the difference
    time != v.total && (v.total - time) % 30 == 0
  }

  /**
   * The body of a report: with several players the two best by progress,
   * otherwise the letters the single player has left.
   */
  function ReportStanding(v: View): (st: Standing)
    requires |v.progresses| > 0
    ensures st.Leaders? <==> |v.progresses| > 1
    ensures st.Leaders? ==>
      var es := AsEntries(v.progresses);
      && multiset{st.first, st.second} <= multiset(es)
      && (forall e :: e in es ==> e.progress <= st.first.progress)
      && (forall e :: e in multiset(es) - multiset{st.first} ==> e.progress <= st.second.progress)
    ensures st.DistanceLeft? ==> st.letters == |v.track| - v.progresses[0].1
  {
    var ranked := Rank(AsEntries(v.progresses));
    if |v.progresses| > 1 then
      ReportLeaders(v.progresses);
      Leaders(ranked[0], ranked[1])
    else
      assert AsEntries(v.progresses) == [Entry(v.progresses[0].0, v.progresses[0].1, None)];
      assert ranked[0] in multiset(AsEntries(v.progresses));
      DistanceLeft(|v.track| - ranked[0].progress)
  }

  /** The two heads of the progress ranking are the leaders of the progress entries. */
  lemma ReportLeaders(ps: seq<(string, int)>)
    requires |ps| > 1
    ensures var es := AsEntries(ps); var ranked := Rank(es);
      && multiset{ranked[0], ranked[1]} <= multiset(es)
      && (forall e :: e in es ==> e.progress <= ranked[0].progress)
      && (forall e :: e in multiset(es) - multiset{ranked[0]} ==> e.progress <= ranked[1].progress)
  {
    var es := AsEntries(ps);
    var ranked := Rank(es);
    SameElements(ranked, es);
    LeadersOfRanked(ranked);
  }

  /** Two sequences with the same multiset have the same elements. */
  lemma SameElements(a: seq<Entry>, b: seq<Entry>)
    requires multiset(a) == multiset(b)
    ensures forall e :: e in a <==> e in b
  {
    forall e
      ensures e in a <==> e in b
    {
      assert e in a <==> e in multiset(a);
      assert e in b <==> e in multiset(b);
    }
  }

  /** In a ranking by progress alone, the head is the best and the second the best of the rest. */
  lemma LeadersOfRanked(ranked: seq<Entry>)
    requires Ranked(ranked) && |ranked| > 1
    requires forall e :: e in ranked ==> e.finish.None?
    ensures multiset{ranked[0], ranked[1]} <= multiset(ranked)
    ensures forall e :: e in ranked ==> e.progress <= ranked[0].progress
    ensures forall e :: e in multiset(ranked) - multiset{ranked[0]} ==> e.progress <= ranked[1].progress
  {
    var tail := ranked[1..];
    DropHead(ranked);
    DropHead(tail);
    HeadIsBest(ranked);
    assert Ranked(tail) by {
      forall i, j | 0 <= i < j < |tail|
        ensures Precedes(tail[i], tail[j])
      {
        assert tail[i] == ranked[i + 1] && tail[j] == ranked[j + 1];
      }
    }
    HeadIsBest(tail);
    forall e | e in multiset(tail)
      ensures e.progress <= ranked[1].progress
    {
      assert e in tail;
    }
  }

  /** Removing the head from the entries of a nonempty sequence leaves the entries of its tail. */
  lemma DropHead(s: seq<Entry>)
    requires |s| > 0
    ensures s[0] in multiset(s) && multiset(s) - multiset{s[0]} == multiset(s[1..])
  {
    assert s == [s[0]] + s[1..];
  }

  /** The head of a nonempty ranking by progress alone has the highest progress. */
  lemma HeadIsBest(ranked: seq<Entry>)
    requires Ranked(ranked) && |ranked| > 0
    requires forall e :: e in ranked ==> e.finish.None?
    ensures forall e :: e in ranked ==> e.progress <= ranked[0].progress
  {
    forall e | e in ranked
      ensures e.progress <= ranked[0].progress
    {
      var i :| 0 <= i < |ranked| && ranked[i] == e;
      if i > 0 {
        assert Precedes(ranked[0], ranked[i]);
      }
    }
  }

  /**
   * `onTime(time)`: a report when one is due (the handler throws before
   * saying anything when the room has no players), then "running out" when
   * two seconds are left.
   */
  function TimeLines(v: View, time: int): (r: seq<Line>)
    ensures ReportDue(v, time) && |v.progresses| == 0 ==> r == []
    ensures !ReportDue(v, time) ==> r == (if time == 2 then [RunningOut] else [])
    ensures ReportDue(v, time) && |v.progresses| > 0 ==>
      r == [Report(v.total - time, ReportStanding(v))] + (if time == 2 then [RunningOut] else [])
  {
    if !ReportDue(v, time) then (if time == 2 then [RunningOut] else [])
    else if |v.progresses| == 0 then []
    else
      var report := Report(v.total - time, ReportStanding(v));
      if time == 2 then [report, RunningOut] else [report]
  }

  /**
   * What `onTime` says, line by line: "running out" exactly at 2 seconds
   * unless the handler throws first, always as the last line; a report
   * exactly when one is due in a room with players, always as the first.
   */
  lemma TimeLinesSaid(v: View, time: int)
    ensures var r := TimeLines(v, time);
      && |r| <= 2
      && (RunningOut in r <==> time == 2 && !(ReportDue(v, time) && |v.progresses| == 0))
      && (|r| > 0 && r[0].Report? <==> ReportDue(v, time) && |v.progresses| > 0)
      && (forall i :: 0 <= i < |r| ==> r[i] == RunningOut || (i == 0 && r[i].Report?))
      && (forall i :: 0 <= i < |r| && r[i] == RunningOut ==> i == |r| - 1)
  {
    if !ReportDue(v, time) {
      WarningOnly(time == 2);
    } else if |v.progresses| > 0 {
      ReportThenWarning(Report(v.total - time, ReportStanding(v)), time == 2);
    }
  }

  /** The lines of `onTime` when no report is due. */
  lemma WarningOnly(warn: bool)
    ensures var r := if warn then [RunningOut] else [];
      && |r| <= 2
      && (RunningOut in r <==> warn) && !(|r| > 0 && r[0].Report?)
      && (forall i :: 0 <= i < |r| ==> r[i] == RunningOut || (i == 0 && r[i].Report?))
      && (forall i :: 0 <= i < |r| && r[i] == RunningOut ==> i == |r| - 1)
  {
  }

  /** The lines of `onTime` when a report is due in a room with players. */
  lemma ReportThenWarning(report: Line, warn: bool)
    requires report.Report?
    ensures var r := [report] + (if warn then [RunningOut] else []);
      && |r| <= 2
      && (RunningOut in r <==> warn) && |r| > 0 && r[0].Report?
      && (forall i :: 0 <= i < |r| ==> r[i] == RunningOut || (i == 0 && r[i].Report?))
      && (forall i :: 0 <= i < |r| && r[i] == RunningOut ==> i == |r| - 1)
  {
    var r := [report] + (if warn then [RunningOut] else []);
    assert r[0] == report;
  }

  // ---------------------------------------------------------------------------
  // onPlayerJoined

  /** `progresses[u]`: the progress stored for u, if any. */
  function ProgressOf(ps: seq<(string, int)>, u: string): (r: Option<int>)
    ensures r.Some? ==> (u, r.value) in ps
    ensures r.None? <==> forall i :: 0 <= i < |ps| ==> ps[i].0 != u
  {
    if ps == [] then None
    else if ps[0].0 == u then Some(ps[0].1)
    else ProgressOf(ps[1..], u)
  }

  /**
   * `onPlayerJoined(u)`: a greeting while the room waits; during a race a
   * returning player with a non-zero progress hears about the medal (when
   * finished) or the score; anyone else is met with silence.
   */
  function JoinLine(v: View, u: string): (r: Option<Line>)
    ensures !v.active ==> r == Some(Greeting)
    ensures v.active && (ProgressOf(v.progresses, u).None? || ProgressOf(v.progresses, u) == Some(0)) ==> r.None?
    ensures v.active && ProgressOf(v.progresses, u).Some? && ProgressOf(v.progresses, u).value != 0 ==>
      r == (if u in v.finished then Some(Medal(u)) else Some(Score(u, ProgressOf(v.progresses, u).value)))
  {
    if !v.active then Some(Greeting)
    else
      match ProgressOf(v.progresses, u)
      case Some(p) =>
        if p == 0 then None
        else if u in v.finished then Some(Medal(u))
        else Some(Score(u, p))
      case None => None
  }

  // ---------------------------------------------------------------------------
  // onPlayerProgress

  /** The number of players whose progress is not 0: the `reduce` over the progress values, as a left fold. */
  function Started(ps: seq<(string, int)>): (n: nat)
    ensures n == |set i | 0 <= i < |ps| && ps[i].1 != 0|
    ensures n <= |ps|
    ensures n == 0 <==> forall i :: 0 <= i < |ps| ==> ps[i].1 == 0
    decreases |ps|
  {
    if ps == [] then 0
    else
      var init := ps[..|ps| - 1];
      var before := Started(init);
      var last := |ps| - 1;
      assert (set i | 0 <= i < |init| && init[i].1 != 0) == (set i | 0 <= i < last && ps[i].1 != 0);
      assert (set i | 0 <= i < |ps| && ps[i].1 != 0) ==
        (set i | 0 <= i < last && ps[i].1 != 0) + (if ps[last].1 != 0 then {last} else {});
      before + (if ps[last].1 != 0 then 1 else 0)
  }

  /** The distance from the finish at which the approach is announced: 30, or a third of a track of 90 letters or fewer. */
  function ApproachDistance(length: nat): (d: nat)
    ensures length > 90 ==> d == 30
    ensures length <= 90 ==> 3 * d <= length < 3 * d + 3
  {
    if length > 90 then 30 else length / 3
  }

  /** The opening line of a first keystroke: who started first when several race, "what a start" when one does. */
  function OpeningLines(v: View, u: string, p: int): (r: seq<Line>)
    ensures |r| <= 1
    ensures (StartsFirst(u) in r) <==> p <= 1 && |v.progresses| > 1 && Started(v.progresses) == 1
    ensures (WhatAStart in r) <==> p <= 1 && |v.progresses| <= 1
    ensures forall l :: l in r ==> l == StartsFirst(u) || l == WhatAStart
  {
    if p > 1 then []
    else if |v.progresses| > 1 then (if Started(v.progresses) == 1 then [StartsFirst(u)] else [])
    else [WhatAStart]
  }

  /** The place word of a finish line: the size of the room's finished set, while it is at most 3. */
  function Place(v: View): (place: Option<int>)
    ensures place.Some? <==> |v.finished| <= 3
    ensures place.Some? ==> 0 <= place.value <= 3 && place.value == |v.finished|
  {
    if |v.finished| <= 3 then Some(|v.finished|) else None
  }

  /** The finish line: said when u reaches the end of the track while someone is still racing. */
  function FinishLines(v: View, recorded: nat, u: string, p: int): (r: seq<Line>)
    ensures |r| <= 1
    ensures (Finished(u, Place(v)) in r) <==> p == |v.track| && |v.progresses| != recorded + |v.disconnected|
    ensures forall l :: l in r ==> l == Finished(u, Place(v))
  {
    if p == |v.track| && |v.progresses| != recorded + |v.disconnected| then [Finished(u, Place(v))] else []
  }

  /** The approach line: said at the approach distance from the finish, worded by whether others race. */
  function ApproachLines(v: View, u: string, p: int): (r: seq<Line>)
    ensures |r| <= 1
    ensures r != [] <==> |v.track| - p == ApproachDistance(|v.track|)
    ensures forall l :: l in r ==> if |v.progresses| > 1 then l == Approaching(u) else l == AlmostThere
  {
    if |v.track| - p == ApproachDistance(|v.track|)
    then [if |v.progresses| > 1 then Approaching(u) else AlmostThere]
    else []
  }

  // ---------------------------------------------------------------------------
  // onEnd

  /** The players still connected, with the finish times recorded for them, in property order. */
  function Standings(ps: seq<(string, int)>, gone: set<string>, times: map<string, int>): (es: seq<Entry>)
    ensures |es| == |set i | 0 <= i < |ps| && ps[i].0 !in gone|
    ensures forall e :: e in es <==>
      e.name !in gone && (e.name, e.progress) in ps
      && e.finish == (if e.name in times then Some(times[e.name]) else None)
    decreases |ps|
  {
    if ps == [] then []
    else
      var init := ps[..|ps| - 1];
      var last := |ps| - 1;
      var (name, p) := ps[last];
      var rest := Standings(init, gone, times);
      assert forall q :: q in ps <==> q == ps[last] || q in init;
      assert (set i | 0 <= i < |init| && init[i].0 !in gone) == (set i | 0 <= i < last && ps[i].0 !in gone);
      assert (set i | 0 <= i < |ps| && ps[i].0 !in gone)
        == (set i | 0 <= i < last && ps[i].0 !in gone) + (if name !in gone then {last} else {});
      if name in gone then rest
      else rest + [Entry(name, p, if name in times then Some(times[name]) else None)]
  }

  /**
   * The leaderboard of `onEnd`: the connected players, a permutation of
   * their standings in which no pair is in the order the leaderboard comparator
   * would swap.
   */
  function Leaderboard(v: View, times: map<string, int>): (board: seq<Entry>)
    ensures multiset(board) == multiset(Standings(v.progresses, v.disconnected, times))
    ensures forall e :: e in board ==> e.name !in v.disconnected
    ensures forall i, j :: 0 <= i < j < |board| ==> Compare(board[i], board[j]) <= 0
  {
    var s := Standings(v.progresses, v.disconnected, times);
    var board := Rank(s);
    RankedNoInversion(board);
    assert forall e :: e in board ==> e in multiset(s);
    board
  }

  /** Without finish times the leaderboard is ordered by progress, best first. */
  lemma LeaderboardByProgress(v: View, times: map<string, int>)
    requires forall i :: 0 <= i < |v.progresses| ==> v.progresses[i].0 !in times
    ensures var board := Leaderboard(v, times);
      forall i, j :: 0 <= i < j < |board| ==> board[i].progress >= board[j].progress
  {
    var board := Leaderboard(v, times);
    var s := Standings(v.progresses, v.disconnected, times);
    forall k | 0 <= k < |board|
      ensures board[k].finish.None?
    {
      assert board[k] in multiset(s);
      assert board[k] in s;
    }
  }

  /** Every finisher with a positive time is ranked ahead of every connected player without one. */
  lemma FinishersFirst(v: View, times: map<string, int>)
    ensures var board := Leaderboard(v, times);
      forall i, j ::
        (0 <= i < |board| && 0 <= j < |board| && board[i].finish.None? &&
         board[j].finish.Some? && board[j].finish.value > 0) ==> j < i
  {
  }

  /** The results line of `onEnd`: the first three of the leaderboard; nothing when it is empty (the handler throws). */
  function ResultsLine(board: seq<Entry>): (r: Option<Line>)
    ensures r.None? <==> board == []
    ensures r.Some? ==> r.value.Results? && r.value.podium == board[..if |board| < 3 then |board| else 3]
  {
    if board == [] then None
    else Some(Results(board[..if |board| < 3 then |board| else 3]))
  }

  function Lines(o: Option<Line>): seq<Line> {
    if o.Some? then [o.value] else []
  }

  // ---------------------------------------------------------------------------
  // The commentator object

  class Commentator {
    /** The room it talks to, read from the state getter once, at construction. */
    const channel: string
    /** `stateFinished`: the elapsed time at which each finisher finished. */
    var finishTimes: map<string, int>
    /** Whether the joke timeout is pending. */
    var jokeArmed: bool
    /** Everything said so far, to `channel`. */
    var said: seq<Line>

    constructor (initial: View)
      ensures channel == initial.name && finishTimes == map[] && !jokeArmed && said == []
    {
      channel := initial.name;
      finishTimes := map[];
      jokeArmed := false;
      said := [];
    }

    /** `say`: the line goes to the room and the joke timeout is restarted. */
    method Say(line: Line)
      modifies this
      ensures said == old(said) + [line] && jokeArmed
      ensures finishTimes == old(finishTimes)
    {
      said := said + [line];
      jokeArmed := true;
    }

    /** Says the lines in order. */
    method SayAll(lines: seq<Line>)
      modifies this
      ensures said == old(said) + lines
      ensures jokeArmed == (old(jokeArmed) || lines != [])
      ensures finishTimes == old(finishTimes)
    {
      var i := 0;
      while i < |lines|
        invariant i <= |lines|
        invariant said == old(said) + lines[..i]
        invariant jokeArmed == (old(jokeArmed) || i > 0)
        invariant finishTimes == old(finishTimes)
      {
        Say(lines[i]);
        i := i + 1;
      }
      assert lines[..i] == lines;
    }

    method OnCountdown(countdown: int)
      modifies this
      ensures said == old(said) + Lines(CountdownLine(countdown))
      ensures jokeArmed == (old(jokeArmed) || CountdownLine(countdown).Some?)
      ensures finishTimes == old(finishTimes)
    {
      SayAll(Lines(CountdownLine(countdown)));
    }

    method OnStart()
      modifies this
      ensures said == old(said) + [Go] && jokeArmed && finishTimes == old(finishTimes)
    {
      Say(Go);
    }

    method OnTime(v: View, time: int)
      modifies this
      ensures said == old(said) + TimeLines(v, time)
      ensures jokeArmed == (old(jokeArmed) || TimeLines(v, time) != [])
      ensures finishTimes == old(finishTimes)
    {
      SayAll(TimeLines(v, time));
    }

    method OnPlayerJoined(v: View, u: string)
      modifies this
      ensures said == old(said) + Lines(JoinLine(v, u))
      ensures jokeArmed == (old(jokeArmed) || JoinLine(v, u).Some?)
      ensures finishTimes == old(finishTimes)
    {
      SayAll(Lines(JoinLine(v, u)));
    }

    /**
     * `onPlayerProgress(u, p)`: reaching the end of the track records the
     * elapsed time `TIME - time` for u (replacing an earlier one); then the
     * opening, finish and approach lines are said in that order, the finish
     * line against the count of recorded times that includes this one.
     */
    method OnPlayerProgress(v: View, u: string, p: int)
      modifies this
      ensures finishTimes == if p == |v.track| then old(finishTimes)[u := v.total - v.time] else old(finishTimes)
      ensures said == old(said) + OpeningLines(v, u, p) + FinishLines(v, |finishTimes|, u, p) + ApproachLines(v, u, p)
      ensures jokeArmed == (old(jokeArmed) || OpeningLines(v, u, p) != [] ||
                            FinishLines(v, |finishTimes|, u, p) != [] || ApproachLines(v, u, p) != [])
    {
      SayAll(OpeningLines(v, u, p));
      if p == |v.track| {
        finishTimes := finishTimes[u := v.total - v.time];
      }
      SayAll(FinishLines(v, |finishTimes|, u, p));
      SayAll(ApproachLines(v, u, p));
    }

    /** `onEnd`: the results of the recorded finish times. */
    method OnEnd(v: View)
      modifies this
      ensures said == old(said) + Lines(ResultsLine(Leaderboard(v, finishTimes)))
      ensures jokeArmed == (old(jokeArmed) || ResultsLine(Leaderboard(v, finishTimes)).Some?)
      ensures finishTimes == old(finishTimes)
    {
      SayAll(Lines(ResultsLine(Leaderboard(v, finishTimes))));
    }

    /**
     * The joke timeout fires; `pick` is `(Math.random() * 4) | 0`. Saying the
     * joke restarts the timeout.
     */
    method OnJoke(pick: nat)
      requires jokeArmed && pick < JokeCount
      modifies this
      ensures said == old(said) + [Joke(pick)] && jokeArmed && finishTimes == old(finishTimes)
    {
      Say(Joke(pick));
    }
  }
}
