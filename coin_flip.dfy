/**
  The state machine of the coin-flip game component, as values.

  The component keeps five pieces of state (the selected side, the flipping
  flag, a capped history of flips, per-side counters and a score) and changes
  them at three points: a click on a side button, a click on the flip button,
  and the animation timer that the flip schedules. This module gives the pure
  updaters the component passes to its state setters, one transition function
  per event over the whole state, and the properties that any sequence of
  events keeps.
 */
module CoinFlip {

  datatype Option<T> = None | Some(value: T)

  /** The two faces of the coin. */
  datatype Side = Heads | Tails

  /** One completed flip: the side it landed on and the clock reading at that instant. */
  datatype FlipRecord = FlipRecord(side: Side, timestamp: int)

  /** Per-side counters of the flips that landed. */
  datatype Stats = Stats(heads: nat, tails: nat)

  /** A flip whose animation timer is pending: the guess and the result it will settle with. */
  datatype PendingFlip = PendingFlip(guess: Side, result: Side, rotations: int)

  /** The notices the component emits. */
  datatype Notice =
    | NeedSelection                       // the flip button was pressed with no side chosen
    | Won(guess: Side)                    // the guess matched and 10 points were earned
    | Lost(result: Side, guess: Side)     // the coin landed on the other side

  /** The component's state, plus the timer callback a flip has scheduled (if any). */
  datatype GameState = GameState(
    selectedSide: Option<Side>,
    isFlipping: bool,
    flipHistory: seq<FlipRecord>,
    stats: Stats,
    score: int,
    pending: Option<PendingFlip>)

  /** The events the component reacts to. Draws are values of `Math.random()`. */
  datatype Event =
    | SelectSide(side: Side)
    | PressFlip(rotationDraw: real, resultDraw: real)
    | TimerFires(now: int)

  /** Number of flips the history keeps. */
  const HistoryCap: nat := 20
  /** Points for a correct guess. */
  const Reward: int := 10
  /** Least number of coin rotations. */
  const MinRotations: int := 2
  /** Number of distinct rotation counts the draw can add. */
  const RotationSpread: int := 4
  /** Animation time per rotation, in milliseconds. */
  const MsPerRotation: int := 500

  function Min(a: int, b: int): int { if a <= b then a else b }

  function Other(side: Side): Side { if side == Heads then Tails else Heads }

  // ---------------------------------------------------------------------------
  // Random draws
  // ---------------------------------------------------------------------------

  /** A value `Math.random()` can return. */
  predicate IsDraw(u: real) { 0.0 <= u < 1.0 }

  /** `2 + Math.floor(u * 4)`: the number of rotations of the animation. */
  function Rotations(u: real): (r: int)
    requires IsDraw(u)
    ensures MinRotations <= r < MinRotations + RotationSpread
  {
    MinRotations + (u * RotationSpread as real).Floor
  }

  /** Every rotation count from 2 to 5 is reached by some draw. */
  lemma RotationsCoverRange(r: int)
    requires MinRotations <= r < MinRotations + RotationSpread
    ensures exists u :: IsDraw(u) && Rotations(u) == r
  {
    var u := (r - MinRotations) as real / RotationSpread as real;
    assert u * RotationSpread as real == (r - MinRotations) as real;
    assert IsDraw(u) && Rotations(u) == r;
  }

  /** The animation delay in milliseconds that a flip's timer waits. */
  function FlipDelay(rotations: int): (ms: int)
    requires MinRotations <= rotations < MinRotations + RotationSpread
    ensures ms % MsPerRotation == 0
    ensures 1000 <= ms <= 2500
    ensures ms / MsPerRotation == rotations
  {
    rotations * MsPerRotation
  }

  /** `Math.random() > 0.5 ? "heads" : "tails"`. */
  function DrawSide(u: real): (side: Side)
    requires IsDraw(u)
  {
    if u > 0.5 then Heads else Tails
  }

  /** Heads is drawn exactly when the draw lies above one half, and either side can be drawn. */
  lemma DrawSideCoversBoth(side: Side)
    ensures forall u :: IsDraw(u) ==> (DrawSide(u) == Heads <==> u > 0.5)
    ensures exists u :: IsDraw(u) && DrawSide(u) == side
  {
    var u := if side == Heads then 0.75 else 0.25;
    assert IsDraw(u) && DrawSide(u) == side;
  }

  // ---------------------------------------------------------------------------
  // The pure updaters
  // ---------------------------------------------------------------------------

  /** `prev[side]`: the counter of one side. */
  function Count(stats: Stats, side: Side): nat
  {
    match side
    case Heads => stats.heads
    case Tails => stats.tails
  }

  /** `stats.heads + stats.tails`: the number of flips that have landed. */
  function TotalFlips(stats: Stats): (total: nat)
    ensures total == Count(stats, Heads) + Count(stats, Tails)
    ensures forall side :: Count(stats, side) <= total
  {
    stats.heads + stats.tails
  }

  /** `{...prev, [result]: prev[result] + 1}`. */
  function Bump(stats: Stats, result: Side): (r: Stats)
    ensures Count(r, result) == Count(stats, result) + 1
    ensures Count(r, Other(result)) == Count(stats, Other(result))
    ensures TotalFlips(r) == TotalFlips(stats) + 1
  {
    match result
    case Heads => stats.(heads := stats.heads + 1)
    case Tails => stats.(tails := stats.tails + 1)
  }

  /** `[newFlip, ...prev].slice(0, 20)`: the newest flip first, at most 20 kept. */
  function PushRecent(history: seq<FlipRecord>, flip: FlipRecord): (r: seq<FlipRecord>)
    ensures |r| == Min(|history| + 1, HistoryCap)
    ensures r[0] == flip
    ensures forall i :: 0 < i < |r| ==> r[i] == history[i - 1]
  {
    var all := [flip] + history;
    if |all| <= HistoryCap then all else all[..HistoryCap]
  }

  /** Below the cap nothing is dropped; at the cap exactly the oldest entry is. */
  lemma PushRecentDropsOnlyOldest(history: seq<FlipRecord>, flip: FlipRecord)
    ensures |history| < HistoryCap ==> PushRecent(history, flip) == [flip] + history
    ensures |history| == HistoryCap ==>
      PushRecent(history, flip) == [flip] + history[..|history| - 1]
  {
  }

  /** The score updater: `prev + 10` on a correct guess, otherwise the score is left alone. */
  function Award(score: int, guess: Side, result: Side): (r: int)
    ensures r >= score
    ensures r == score + Reward <==> guess == result
    ensures r == score <==> guess != result
  {
    if guess == result then score + Reward else score
  }

  /** The notice emitted when a flip lands. */
  function OutcomeNotice(guess: Side, result: Side): (n: Notice)
    ensures n.Won? <==> guess == result
    ensures n.Won? ==> n.guess == guess
    ensures n.Lost? ==> n.result == result && n.guess == guess && n.result != n.guess
    ensures !n.NeedSelection?
  {
    if guess == result then Won(guess) else Lost(result, guess)
  }

  // ---------------------------------------------------------------------------
  // Transitions
  // ---------------------------------------------------------------------------

  /** The state when the component mounts. */
  function Initial(): (s: GameState)
    ensures s.selectedSide == None && !s.isFlipping && s.flipHistory == []
    ensures TotalFlips(s.stats) == 0 && s.score == 0 && s.pending == None
  {
    GameState(None, false, [], Stats(0, 0), 0, None)
  }

  /** A click on a side button; the buttons are disabled while a flip is animating. */
  function AfterSelect(s: GameState, side: Side): (r: GameState)
    ensures s.isFlipping ==> r == s
    ensures !s.isFlipping ==> r == s.(selectedSide := Some(side))
  {
    if s.isFlipping then s else s.(selectedSide := Some(side))
  }

  /**
    A click on the flip button (disabled while a flip is animating). With no side
    selected only a notice is emitted; otherwise the flag is raised and a timer is
    scheduled that will settle the flip with the drawn result.
   */
  function AfterFlip(s: GameState, rotationDraw: real, resultDraw: real): (r: GameState)
    requires IsDraw(rotationDraw) && IsDraw(resultDraw)
    ensures s.isFlipping || s.selectedSide.None? ==> r == s
    ensures !s.isFlipping && s.selectedSide.Some? ==>
      r.isFlipping && r.pending.Some? &&
      r.pending.value.guess == s.selectedSide.value &&
      r.pending.value.result == DrawSide(resultDraw) &&
      r.pending.value.rotations == Rotations(rotationDraw) &&
      r.selectedSide == s.selectedSide && r.flipHistory == s.flipHistory &&
      r.stats == s.stats && r.score == s.score
  {
    if s.isFlipping || s.selectedSide.None? then s
    else
      var flip := PendingFlip(s.selectedSide.value, DrawSide(resultDraw), Rotations(rotationDraw));
      s.(isFlipping := true, pending := Some(flip))
  }

  /** The response to a click on the flip button. */
  datatype FlipResponse =
    | Ignored                  // the button is disabled: a flip is already animating
    | Notify(notice: Notice)   // no side selected
    | Scheduled(delay: int)    // the timer is set to fire after `delay` milliseconds

  function FlipResponseOf(s: GameState, rotationDraw: real): (resp: FlipResponse)
    requires IsDraw(rotationDraw)
    ensures resp.Ignored? <==> s.isFlipping
    ensures resp.Notify? <==> !s.isFlipping && s.selectedSide.None?
    ensures resp.Notify? ==> resp.notice == NeedSelection
    ensures resp.Scheduled? ==> resp.delay % MsPerRotation == 0 && 1000 <= resp.delay <= 2500
    ensures resp.Scheduled? ==> resp.delay == MsPerRotation * Rotations(rotationDraw)
  {
    if s.isFlipping then Ignored
    else if s.selectedSide.None? then Notify(NeedSelection)
    else Scheduled(FlipDelay(Rotations(rotationDraw)))
  }

  /**
    The timer callback: the flip lands, is put at the head of the history, counted,
    scored, and the selection and the flag are cleared.
   */
  function AfterResolve(s: GameState, now: int): (r: GameState)
    requires s.pending.Some?
    ensures r.selectedSide == None && !r.isFlipping && r.pending == None
    ensures r.flipHistory == PushRecent(s.flipHistory, FlipRecord(s.pending.value.result, now))
    ensures Count(r.stats, s.pending.value.result) == Count(s.stats, s.pending.value.result) + 1
    ensures Count(r.stats, Other(s.pending.value.result)) == Count(s.stats, Other(s.pending.value.result))
    ensures r.score == Award(s.score, s.pending.value.guess, s.pending.value.result)
  {
    var p := s.pending.value;
    s.(isFlipping := false,
       flipHistory := PushRecent(s.flipHistory, FlipRecord(p.result, now)),
       stats := Bump(s.stats, p.result),
       score := Award(s.score, p.guess, p.result),
       selectedSide := None,
       pending := None)
  }

  predicate IsEvent(e: Event)
  {
    e.PressFlip? ==> IsDraw(e.rotationDraw) && IsDraw(e.resultDraw)
  }

  /** One event. A timer event when no flip is pending has no callback to run. */
  function Step(s: GameState, e: Event): GameState
    requires IsEvent(e)
  {
    match e
    case SelectSide(side) => AfterSelect(s, side)
    case PressFlip(u, v) => AfterFlip(s, u, v)
    case TimerFires(now) => if s.pending.Some? then AfterResolve(s, now) else s
  }

  predicate AreEvents(evs: seq<Event>)
  {
    forall i :: 0 <= i < |evs| ==> IsEvent(evs[i])
  }

  /** The state after a sequence of events. */
  function Run(s: GameState, evs: seq<Event>): GameState
    requires AreEvents(evs)
    decreases |evs|
  {
    if evs == [] then s else Run(Step(s, evs[0]), evs[1..])
  }

  /** Whether an event lands a flip: it is a timer event with a flip pending. */
  predicate Lands(s: GameState, e: Event)
  {
    e.TimerFires? && s.pending.Some?
  }

  /** The number of flips that land during a sequence of events. */
  function Landed(s: GameState, evs: seq<Event>): nat
    requires AreEvents(evs)
    decreases |evs|
  {
    if evs == [] then 0
    else (if Lands(s, evs[0]) then 1 else 0) + Landed(Step(s, evs[0]), evs[1..])
  }

  /** The number of flips during a sequence of events whose guess was right. */
  function Wins(s: GameState, evs: seq<Event>): nat
    requires AreEvents(evs)
    decreases |evs|
  {
    if evs == [] then 0
    else
      var win := Lands(s, evs[0]) && s.pending.value.guess == s.pending.value.result;
      (if win then 1 else 0) + Wins(Step(s, evs[0]), evs[1..])
  }

  // ---------------------------------------------------------------------------
  // The invariant
  // ---------------------------------------------------------------------------

  /** The number of entries of a history that landed on `side`. */
  function CountSide(history: seq<FlipRecord>, side: Side): nat
  {
    if history == [] then 0
    else (if history[0].side == side then 1 else 0) + CountSide(history[1..], side)
  }

  /**
    What every reachable state satisfies: the history has as many entries as
    flips have landed, but at most 20, and no more entries of a side than that
    side's counter; the score is a multiple of 10 and at most 10 per flip;
    the flag is raised exactly while a timer is pending, and a pending flip's
    guess is still the selected side.
   */
  predicate Inv(s: GameState)
  {
    |s.flipHistory| == Min(TotalFlips(s.stats), HistoryCap) &&
    (forall side :: CountSide(s.flipHistory, side) <= Count(s.stats, side)) &&
    0 <= s.score <= Reward * TotalFlips(s.stats) && s.score % Reward == 0 &&
    (s.isFlipping <==> s.pending.Some?) &&
    (s.pending.Some? ==>
       s.selectedSide == Some(s.pending.value.guess) &&
       MinRotations <= s.pending.value.rotations < MinRotations + RotationSpread)
  }

  lemma {:induction false} CountSidePrefix(history: seq<FlipRecord>, k: nat, side: Side)
    requires k <= |history|
    ensures CountSide(history[..k], side) <= CountSide(history, side)
  {
    if k > 0 {
      assert history[..k][1..] == history[1..][..k - 1];
      CountSidePrefix(history[1..], k - 1, side);
    }
  }

  /** Pushing a flip adds at most one entry of its side and none of the other. */
  lemma CountSidePushRecent(history: seq<FlipRecord>, flip: FlipRecord, side: Side)
    ensures CountSide(PushRecent(history, flip), side)
      <= CountSide(history, side) + (if flip.side == side then 1 else 0)
  {
    var all := [flip] + history;
    assert all[1..] == history;
    CountSidePrefix(all, |PushRecent(history, flip)|, side);
    assert PushRecent(history, flip) == all[..|PushRecent(history, flip)|];
  }

  lemma InvInitial()
    ensures Inv(Initial())
  {
  }

  lemma InvAfterSelect(s: GameState, side: Side)
    requires Inv(s)
    ensures Inv(AfterSelect(s, side))
  {
  }

  lemma InvAfterFlip(s: GameState, u: real, v: real)
    requires Inv(s) && IsDraw(u) && IsDraw(v)
    ensures Inv(AfterFlip(s, u, v))
  {
  }

  lemma InvAfterResolve(s: GameState, now: int)
    requires Inv(s) && s.pending.Some?
    ensures Inv(AfterResolve(s, now))
  {
    var p := s.pending.value;
    var r := AfterResolve(s, now);
    forall side
      ensures CountSide(r.flipHistory, side) <= Count(r.stats, side)
    {
      CountSidePushRecent(s.flipHistory, FlipRecord(p.result, now), side);
      if side != p.result { assert side == Other(p.result); }
    }
  }

  lemma InvStep(s: GameState, e: Event)
    requires Inv(s) && IsEvent(e)
    ensures Inv(Step(s, e))
  {
    match e
    case SelectSide(side) => InvAfterSelect(s, side);
    case PressFlip(u, v) => InvAfterFlip(s, u, v);
    case TimerFires(now) => if s.pending.Some? { InvAfterResolve(s, now); }
  }

  /** Every state reached from a state satisfying the invariant satisfies it. */
  lemma {:induction false} InvRun(s: GameState, evs: seq<Event>)
    requires Inv(s) && AreEvents(evs)
    ensures Inv(Run(s, evs))
    decreases |evs|
  {
    if evs != [] {
      InvStep(s, evs[0]);
      InvRun(Step(s, evs[0]), evs[1..]);
    }
  }

  // ---------------------------------------------------------------------------
  // Properties of runs
  // ---------------------------------------------------------------------------

  /** The counters only grow. */
  lemma {:induction false} RunCountersGrow(s: GameState, evs: seq<Event>)
    requires AreEvents(evs)
    ensures forall side :: Count(Run(s, evs).stats, side) >= Count(s.stats, side)
    decreases |evs|
  {
    if evs != [] {
      var t := Step(s, evs[0]);
      RunCountersGrow(t, evs[1..]);
      forall side ensures Count(t.stats, side) >= Count(s.stats, side) {
        if Lands(s, evs[0]) && side != s.pending.value.result {
          assert side == Other(s.pending.value.result);
        }
      }
    }
  }

  /**
    The counters' sum grows by exactly the number of flips that landed; the
    score only grows, by exactly 10 per correct guess.
   */
  lemma {:induction false} RunTallies(s: GameState, evs: seq<Event>)
    requires AreEvents(evs)
    ensures TotalFlips(Run(s, evs).stats) == TotalFlips(s.stats) + Landed(s, evs)
    ensures Run(s, evs).score == s.score + Reward * Wins(s, evs)
    ensures Run(s, evs).score >= s.score
    decreases |evs|
  {
    if evs != [] {
      RunTallies(Step(s, evs[0]), evs[1..]);
    }
  }

  /** The sides of a history's entries, in the history's order. */
  function Sides(history: seq<FlipRecord>): seq<Side>
  {
    seq(|history|, i requires 0 <= i < |history| => history[i].side)
  }

  /** What `.slice(0, 20)` keeps of a sequence: its first 20 elements. */
  function Window<T>(s: seq<T>): seq<T>
  {
    if |s| <= HistoryCap then s else s[..HistoryCap]
  }

  /** The results of the flips that land during a sequence of events, the last to land first. */
  function LandedSides(s: GameState, evs: seq<Event>): seq<Side>
    requires AreEvents(evs)
    decreases |evs|
  {
    if evs == [] then []
    else
      var landing := if Lands(s, evs[0]) then [s.pending.value.result] else [];
      LandedSides(Step(s, evs[0]), evs[1..]) + landing
  }

  lemma {:induction false} LandedSidesCount(s: GameState, evs: seq<Event>)
    requires AreEvents(evs)
    ensures |LandedSides(s, evs)| == Landed(s, evs)
    decreases |evs|
  {
    if evs != [] {
      LandedSidesCount(Step(s, evs[0]), evs[1..]);
    }
  }

  /** Pushing a flip onto the history windows its side onto the history's sides. */
  lemma SidesPushRecent(history: seq<FlipRecord>, flip: FlipRecord)
    ensures Sides(PushRecent(history, flip)) == Window([flip.side] + Sides(history))
  {
  }

  /** Windowing twice keeps the same elements as windowing once. */
  lemma WindowAbsorbs<T>(a: seq<T>, b: seq<T>)
    ensures Window(a + Window(b)) == Window(a + b)
  {
  }

  /**
    Over any events, the history holds, newest first, the results of the flips
    that landed followed by the entries it already held, cut to 20.
   */
  lemma {:induction false} RunHistory(s: GameState, evs: seq<Event>)
    requires |s.flipHistory| <= HistoryCap && AreEvents(evs)
    ensures Sides(Run(s, evs).flipHistory) == Window(LandedSides(s, evs) + Sides(s.flipHistory))
    decreases |evs|
  {
    if evs != [] {
      var t := Step(s, evs[0]);
      var landing := if Lands(s, evs[0]) then [s.pending.value.result] else [];
      if Lands(s, evs[0]) {
        SidesPushRecent(s.flipHistory, FlipRecord(s.pending.value.result, evs[0].now));
      } else {
        assert landing + Sides(s.flipHistory) == Sides(s.flipHistory);
      }
      assert Sides(t.flipHistory) == Window(landing + Sides(s.flipHistory));
      RunHistory(t, evs[1..]);
      var rest := LandedSides(t, evs[1..]);
      WindowAbsorbs(rest, landing + Sides(s.flipHistory));
      assert rest + (landing + Sides(s.flipHistory)) == (rest + landing) + Sides(s.flipHistory);
    }
  }

  /**
    From the initial state, after any events, the counters sum to the number of
    flips that landed and the score is 10 per correct guess.
   */
  lemma FromInitialTallies(evs: seq<Event>)
    requires AreEvents(evs)
    ensures TotalFlips(Run(Initial(), evs).stats) == Landed(Initial(), evs)
    ensures Run(Initial(), evs).score == Reward * Wins(Initial(), evs)
  {
    TalliesFromZero(Initial(), evs);
  }

  /** The same from any state whose counters and score are zero. */
  lemma TalliesFromZero(s: GameState, evs: seq<Event>)
    requires TotalFlips(s.stats) == 0 && s.score == 0 && AreEvents(evs)
    ensures TotalFlips(Run(s, evs).stats) == Landed(s, evs)
    ensures Run(s, evs).score == Reward * Wins(s, evs)
  {
    RunTallies(s, evs);
  }

  /**
    From the initial state, after any events, the history holds the results of
    the last min(n, 20) of the n flips that landed, the most recent first.
   */
  lemma FromInitialHistory(evs: seq<Event>)
    requires AreEvents(evs)
    ensures |LandedSides(Initial(), evs)| == Landed(Initial(), evs)
    ensures Sides(Run(Initial(), evs).flipHistory) == Window(LandedSides(Initial(), evs))
  {
    LandedSidesCount(Initial(), evs);
    RunHistory(Initial(), evs);
    assert LandedSides(Initial(), evs) + Sides(Initial().flipHistory) == LandedSides(Initial(), evs);
  }

  /** The history is ordered newest first. */
  predicate NewestFirst(history: seq<FlipRecord>)
  {
    forall i :: 0 < i < |history| ==> history[i - 1].timestamp >= history[i].timestamp
  }

  /** A flip stamped no earlier than the newest entry keeps the history newest first. */
  lemma PushRecentNewestFirst(history: seq<FlipRecord>, flip: FlipRecord)
    requires NewestFirst(history)
    requires history != [] ==> flip.timestamp >= history[0].timestamp
    ensures NewestFirst(PushRecent(history, flip))
  {
  }

  /** While a flip is pending, neither a side click nor a flip click changes anything. */
  lemma OnePendingFlip(s: GameState, e: Event)
    requires Inv(s) && IsEvent(e) && s.isFlipping && !e.TimerFires?
    ensures Step(s, e) == s
  {
  }
}
