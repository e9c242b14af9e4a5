/**
  The coin-flip game component as an object whose fields its handlers update
  in place. Each handler is proved to move the object's state exactly as the
  corresponding transition of module CoinFlip does, so everything proved there
  about runs of events holds of the object.
 */
module CoinFlipGame {
  import opened CoinFlip

  class Game {
    var selectedSide: Option<Side>
    var isFlipping: bool
    var flipHistory: seq<FlipRecord>
    var stats: Stats
    var score: int
    /** The callback scheduled by the last flip and not yet run, with what it captured. */
    var pending: Option<PendingFlip>

    /** The object's state as a value. */
    function State(): GameState
      reads this
    {
      GameState(selectedSide, isFlipping, flipHistory, stats, score, pending)
    }

    predicate Valid()
      reads this
    {
      Inv(State())
    }

    /** Mounting the component: no selection, not flipping, no history, zero counters and score. */
    constructor ()
      ensures Valid() && State() == Initial()
    {
      selectedSide := None;
      isFlipping := false;
      flipHistory := [];
      stats := Stats(0, 0);
      score := 0;
      pending := None;
    }

    /** A click on the heads or tails button; the button is disabled while flipping. */
    method SelectSide(side: Side)
      requires Valid()
      modifies this
      ensures Valid() && State() == AfterSelect(old(State()), side)
      ensures !old(isFlipping) ==> selectedSide == Some(side)
    {
      if !isFlipping {
        selectedSide := Some(side);
      }
    }

    /**
      A click on the flip button, `rotationDraw` and `resultDraw` being the two
      values `Math.random()` returns. Without a selection only a notice results;
      otherwise the flag is raised and the timer is scheduled with its delay.
     */
    method FlipCoin(rotationDraw: real, resultDraw: real) returns (response: FlipResponse)
      requires Valid() && IsDraw(rotationDraw) && IsDraw(resultDraw)
      modifies this
      ensures Valid() && State() == AfterFlip(old(State()), rotationDraw, resultDraw)
      ensures response == FlipResponseOf(old(State()), rotationDraw)
      ensures response.Scheduled? ==>
        pending.Some? && response.delay == MsPerRotation * pending.value.rotations
    {
      if isFlipping {
        response := Ignored;
        return;
      }
      if selectedSide.None? {
        response := Notify(NeedSelection);
        return;
      }
      isFlipping := true;
      var rotations := Rotations(rotationDraw);
      var result := DrawSide(resultDraw);
      pending := Some(PendingFlip(selectedSide.value, result, rotations));
      response := Scheduled(FlipDelay(rotations));
    }

    /**
      The scheduled callback, run at clock reading `now`: record the flip, count
      it, score it against the side selected when the flip started, notify, and
      clear the selection and the flag.
     */
    method Resolve(now: int) returns (notice: Notice)
      requires Valid() && pending.Some?
      modifies this
      ensures Valid() && State() == AfterResolve(old(State()), now)
      ensures notice == OutcomeNotice(old(pending).value.guess, old(pending).value.result)
      ensures score - old(score) == if notice.Won? then Reward else 0
    {
      var flip := pending.value;
      isFlipping := false;
      flipHistory := PushRecent(flipHistory, FlipRecord(flip.result, now));
      stats := Bump(stats, flip.result);
      if flip.guess == flip.result {
        score := score + Reward;
        notice := Won(flip.guess);
      } else {
        notice := Lost(flip.result, flip.guess);
      }
      selectedSide := None;
      pending := None;
      InvAfterResolve(old(State()), now);
    }

    /** The "Total Flips" badge: never fewer than the flips shown in the history, nor than a tenth of the score. */
    method TotalFlipsBadge() returns (total: nat)
      requires Valid()
      ensures total == TotalFlips(stats)
      ensures |flipHistory| <= total && score <= Reward * total
    {
      total := TotalFlips(stats);
    }
  }

  /** Select heads, flip, and let the timer fire with a heads result: 10 points, one heads counted. */
  method WinningRound(now: int) returns (g: Game, notice: Notice)
    ensures g.Valid() && g.score == Reward && g.stats == Stats(1, 0)
    ensures g.flipHistory == [FlipRecord(Heads, now)] && g.selectedSide == None && !g.isFlipping
    ensures notice == Won(Heads)
  {
    g := new Game();
    g.SelectSide(Heads);
    var response := g.FlipCoin(0.0, 0.75);
    assert response == Scheduled(1000);
    notice := g.Resolve(now);
  }
}
