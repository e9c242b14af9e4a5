# Cat Coin Flip: the game component's state machine

This project models the game component of a browser coin-flip game
(`CoinFlipGame` in `components/coin-flip-game.tsx`). The player picks heads or
tails and presses "Flip Coin!". The component then raises its `isFlipping` flag
and draws a rotation count and a result. It also schedules a timer that waits
`rotations * 500` ms. When the timer fires, the flip is put at the head of a
20-entry history and counted in the per-side stats. A correct guess earns 10
points. The selection and the flag are then cleared. The side buttons and the
flip button are disabled while the flag is up.

Two Dafny modules:

- `CoinFlip` (`coin_flip.dfy`) holds the values. These are the sides, flip
  records, stats, notices and the whole component state (`GameState`). It has
  the pure updaters the component hands to its setters: `PushRecent` for the
  history, `Bump` for the stats and `Award` for the score. It also has one
  transition function per event (`AfterSelect`, `AfterFlip`, `AfterResolve`)
  and `Run`, which applies a sequence of events. The invariant `Inv` is
  proved to hold for every state a run reaches. Further lemmas relate the
  counters, the score and the history to the number of flips that landed and
  the number of correct guesses.
- `CoinFlipGame` (`coin_flip_game.dfy`) holds the class `Game`. Its fields are
  the component's state variables plus `pending`, the timer callback that a
  flip schedules. Its handlers `SelectSide`, `FlipCoin` and `Resolve` update
  the fields in place. Each is proved to move `State()` exactly as the
  matching transition of `CoinFlip` does.

`Math.random()` is a `real` parameter in [0, 1). The flip button's two calls
(lines 36 and 39) become `rotationDraw` and `resultDraw`. `Date.now()` is the
`now: int` parameter of `Resolve`. The timer is split out: `FlipCoin` returns
the delay it schedules, and `Resolve` is the callback run later.

## Model

| member | source | states |
|---|---|---|
| `CoinFlip.Rotations` | components/coin-flip-game.tsx:35-36 | the rotation count `2 + floor(4u)` lies in 2..5 for every draw `u` in [0, 1) |
| `CoinFlip.RotationsCoverRange` | components/coin-flip-game.tsx:35-36 | every rotation count from 2 to 5 is produced by some draw |
| `CoinFlip.FlipDelay` | components/coin-flip-game.tsx:70 | the animation delay is a multiple of 500 ms between 1000 and 2500 ms and determines the rotation count |
| `CoinFlip.DrawSideCoversBoth` | components/coin-flip-game.tsx:38-39 | `DrawSide` (the result draw) gives heads exactly when the draw exceeds 0.5, and both sides are possible results |
| `CoinFlip.TotalFlips` | components/coin-flip-game.tsx:73 | the total is the sum of the two counters and is at least each of them |
| `CoinFlip.Bump` | components/coin-flip-game.tsx:49-53 | the result's counter goes up by one, the other counter is unchanged, and the total goes up by one |
| `CoinFlip.PushRecent` | components/coin-flip-game.tsx:45-47 | the new history has length min(old + 1, 20), the new flip first, then the earlier entries in their order |
| `CoinFlip.PushRecentDropsOnlyOldest` | components/coin-flip-game.tsx:47 | below 20 entries nothing is dropped; at 20 exactly the oldest entry is dropped |
| `CoinFlip.PushRecentNewestFirst` | components/coin-flip-game.tsx:46-47 | a flip stamped no earlier than the newest entry keeps the history ordered newest first |
| `CoinFlip.Award` | components/coin-flip-game.tsx:55-57 | the score rises by exactly 10 if and only if the guess matched, is otherwise unchanged, and never falls |
| `CoinFlip.OutcomeNotice` | components/coin-flip-game.tsx:56-66 | a "won" notice exactly when the guess matched; a "lost" notice names the result and the differing guess |
| `CoinFlip.Initial` | components/coin-flip-game.tsx:18-22 | the mounted component has no selection, is not flipping, has an empty history, zero counters and zero score |
| `CoinFlip.AfterSelect` | components/coin-flip-game.tsx:140-141 | a side click sets the selection, and changes nothing while a flip is animating |
| `CoinFlip.AfterFlip` | components/coin-flip-game.tsx:25-40 | with no selection, or while flipping, nothing changes; otherwise the flag is raised and a flip is pending with the selected guess and the drawn result, the rest unchanged |
| `CoinFlip.FlipResponseOf` | components/coin-flip-game.tsx:25-70 | the click is ignored exactly while flipping, gives the "select a side" notice exactly when nothing is selected, and otherwise schedules a delay of 500 ms per drawn rotation, a multiple of 500 in 1000..2500 |
| `CoinFlip.AfterResolve` | components/coin-flip-game.tsx:42-69 | the flip is pushed onto the history, the result's counter alone goes up by one, the score is awarded, and the selection, flag and pending timer are cleared |
| `CoinFlip.InvInitial` | components/coin-flip-game.tsx:18-22 | the initial state satisfies the invariant |
| `CoinFlip.InvAfterSelect` | components/coin-flip-game.tsx:140-141 | a side click keeps the invariant |
| `CoinFlip.InvAfterFlip` | components/coin-flip-game.tsx:25-40 | a flip click keeps the invariant |
| `CoinFlip.InvAfterResolve` | components/coin-flip-game.tsx:42-69 | the timer callback keeps the invariant: history length min(total, 20), no side over-represented in the history, score a multiple of 10 and at most 10 per flip |
| `CoinFlip.InvStep` | components/coin-flip-game.tsx:25-71 | every event keeps the invariant; `Step` dispatches a side click, a flip click or the timer to its transition, and a timer event with nothing pending changes nothing |
| `CoinFlip.InvRun` | components/coin-flip-game.tsx:18-71 | every state reachable by a sequence of events keeps the invariant |
| `CoinFlip.RunCountersGrow` | components/coin-flip-game.tsx:50-53 | over any events neither counter ever falls |
| `CoinFlip.RunTallies` | components/coin-flip-game.tsx:50-57 | over any events the total rises by exactly the number of flips that landed, and the score rises by exactly 10 per correct guess and never falls |
| `CoinFlip.LandedSidesCount` | components/coin-flip-game.tsx:42-47 | the list of landed results has one entry per flip that landed |
| `CoinFlip.SidesPushRecent` | components/coin-flip-game.tsx:46-47 | pushing a flip puts its side first in the history's sides, cut to 20 |
| `CoinFlip.RunHistory` | components/coin-flip-game.tsx:42-47 | over any events the history's sides are the results of the flips that landed, the last to land first, followed by the earlier entries, cut to 20 |
| `CoinFlip.FromInitialTallies` | components/coin-flip-game.tsx:18-73 | from mount, the total equals the number of flips that landed and the score is 10 per correct guess |
| `CoinFlip.FromInitialHistory` | components/coin-flip-game.tsx:18-47 | from mount, the history's sides are the results of the last min(n, 20) of the n flips that landed, the most recent first |
| `CoinFlip.OnePendingFlip` | components/coin-flip-game.tsx:141-177 | while a flip is animating, side and flip clicks change nothing, so at most one flip is pending |
| `CoinFlipGame.Game.constructor` | components/coin-flip-game.tsx:18-22 | a new game is in the initial state and valid |
| `CoinFlipGame.Game.SelectSide` | components/coin-flip-game.tsx:159-160 | updates the fields as `AfterSelect` and keeps the invariant |
| `CoinFlipGame.Game.FlipCoin` | components/coin-flip-game.tsx:25-70 | updates the fields as `AfterFlip`, keeps the invariant, and returns the response `FlipResponseOf` gives, whose delay is 500 ms per rotation of the pending flip |
| `CoinFlipGame.Game.Resolve` | components/coin-flip-game.tsx:42-70 | updates the fields as `AfterResolve`, keeps the invariant, returns the outcome notice, and adds 10 to the score exactly on a win |
| `CoinFlipGame.Game.TotalFlipsBadge` | components/coin-flip-game.tsx:73 | the badge's total is the counters' sum, at least the history's length and at least a tenth of the score |
| `CoinFlipGame.WinningRound` | components/coin-flip-game.tsx:25-70 | selecting heads and landing heads gives score 10, stats (1, 0), a one-entry history and a "won" notice |

## Left out

- Wallets and transactions are not modelled: `components/coin-flip-game.tsx`
  contains no wallet or transaction code, and the game's outcome is drawn
  locally. `app/layout.tsx` only wraps the page in a wallet provider from an
  external library.
- Rendering (JSX, CSS classes, icons, cat images) and the instructions toggle
  (`showInstructions`, lines 23 and 182-203) are presentation.
- Notices are a `Notice` value (need-selection, won, lost) carrying the sides
  they name. Their title and description text and the toast library are not
  modelled.
- The heads/tails percentages (lines 74-75) use floating-point division and
  `Math.round`; they are not modelled.
- `Math.random()` is an exact `real` in [0, 1), not an IEEE double. For
  `u < 1` the double product `u * 4` is also below 4, so the rotation range
  is the same.
- The counters, the score and `Date.now()` are JavaScript numbers (IEEE
  doubles); the model uses unbounded integers. Doubles hold integers exactly
  up to 2^53, far beyond any reachable count, score or clock reading.
- `Date.now()` is a parameter. The clock is not assumed to be monotonic, so
  newest-first timestamp order is proved only for clock readings that do not
  go back (`PushRecentNewestFirst`).
- `FlipCoin` and `SelectSide` model the click on the button: the handler
  together with the button's `disabled={isFlipping}`. The handler itself
  (lines 25-31) does not test `isFlipping`. The model assumes that React
  re-renders, and so disables the buttons, before the next click is
  delivered.
- React's batching of the setters in the timer callback is taken as
  atomic: `Resolve` changes all fields in one step. Unmounting the component
  while the timer is pending is not modelled.
- `components/coin-history.tsx` (glyphs for the history, or a placeholder),
  `components/connect-wallet-button.tsx` (a 1500 ms simulated "connecting"
  state), `app/page.tsx`, `app/metadata.tsx` and the cat image components
  hold no logic to model.
