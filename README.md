# Mole game session, modelled in Dafny

A model of the whack-a-mole game screen of `app/App.tsx`: a 3-second
countdown, then 30 seconds of play in which the mole jumps to a random spot
every second and on every press, each accepted press scoring one point, then
the game-over screen with the final score.

- `Placement.dfy` — module `MolePlacement`: the random draws (`Draw`, a real
  in [0, 1)), the mole's `Position` and `MoveMole`, the arithmetic of
  `moveMole` (top draw first, `top = r1 * (height - 200)`,
  `left = r2 * (width - 100)`).
- `Session.dfy` — module `MoleSession`: the state cells as a `Session`
  value, the reachable-state invariant `Session.Valid`, one step function
  per callback (`AfterCountdownTick`, `AfterGameTick`, `AfterPress`), the
  screen selection (`Shown`, `Phase`), runs of events (`Run`) and the
  lemmas about them: one-way phase progress, bounded counters, a score
  that only an accepted press changes, a frozen game-over state and a
  whole game end to end.
- `Game.dfy` — module `MoleGame`: class `Game` holding the six state cells
  as fields; its methods `CountdownTick`, `GameTick` and `Press` update them
  in place and are proved against the step functions.

Each step is the settled state after React has re-run the effects that
depend on the changed cell. The countdown tick that reaches 0 also starts
the game (the effect's `else` branch). The game tick that reaches 0 still
moves the mole, and it also ends the game. In the model, a press therefore
cannot land between the last tick and the game-over flag (the program itself
renders once in between; see "## Left out").

Facts about the code that the model keeps:
- `moveMole` (app/App.tsx:97-101) rejects no window size. For a window
  smaller than a margin, `MoveMole` yields an offset between that negative
  extent and 0.
- The mole is not moved when play starts; it stays at `{0, 0}` until the
  first game tick or press.
- Two draws may repeat a position, so a tick or press need not move the mole
  to a different spot.
- The mole is 140 wide but the horizontal margin is 100, so the mole can
  overhang the right edge (`MoleCanOverhangRightEdge`). In a window taller
  than 200 it always fits vertically.

## Model

| member | source | states |
|---|---|---|
| `MolePlacement.MoveMole` | app/App.tsx:97-101 | for a window taller than 200 the top offset is in [0, height-200); for one wider than 100 the left offset is in [0, width-100); for a smaller window each offset lies between that negative extent and 0 |
| `MolePlacement.MoleCanOverhangRightEdge` | app/App.tsx:97-101 | for every window width, some left draw puts the 140-wide mole past the right edge; for a window taller than 200, every draw keeps it inside vertically |
| `MoleSession.Init` | app/App.tsx:11-16 | the mounted state is reachable-valid: countdown 3, 30 seconds, score 0, neither started nor over |
| `MoleSession.AfterCountdownTick` | app/App.tsx:85-94 | keeps the invariant and only moves forward: flags one-way, score kept or raised, counters kept or lowered |
| `MoleSession.AfterGameTick` | app/App.tsx:104-114 | keeps the invariant (including the mole inside the margins) and only moves forward |
| `MoleSession.AfterPress` | app/App.tsx:117-123 | keeps the invariant and only moves forward |
| `MoleSession.Phase` | app/App.tsx:136-166 | once the fonts are loaded, and when game over implies started, exactly one of the three panels listed by `Shown` (the render conditions at lines 137, 145 and 161, in layout order) is rendered, and it is the returned screen |
| `MoleSession.CountdownTickSteps` | app/App.tsx:85-94 | the transition spelled out field by field, under `Valid`: a positive count drops by exactly 1 and the game starts exactly when it reaches 0, nothing else changes; at 0 the tick does nothing and the game has started |
| `MoleSession.GameTickSteps` | app/App.tsx:104-114 | the transition spelled out field by field, under `Valid`: during play the time drops by exactly 1, the mole moves with the two draws, the score is kept, and the game is over exactly when the time reaches 0; outside play nothing changes |
| `MoleSession.PressSteps` | app/App.tsx:117-123 | the transition spelled out field by field: during play the score rises by exactly 1 and the mole moves, nothing else changes; during the countdown or after game over nothing changes |
| `MoleSession.ScoreOnlyByAcceptedPress` | app/App.tsx:117-123 | every event changes the score by 1 if it is a press during play and by 0 otherwise |
| `MoleSession.GameOverIsFinal` | app/App.tsx:104-123 | once the game is over, no tick or press changes the session |
| `MoleSession.RunPreservesValid` | app/App.tsx:85-123 | every run of events from a reachable state keeps the counters in [0, 3] and [0, 30], started iff the count is 0, over iff the time is 0, over implies started, a non-negative score and the mole inside the margins |
| `MoleSession.RunProgresses` | app/App.tsx:85-123 | over any run, started and over only go from false to true, the score never falls and both counters never rise |
| `MoleSession.PhaseNeverGoesBack` | app/App.tsx:136-166 | over any run from a reachable state, the screen moves only forward from countdown to play to game over |
| `MoleSession.PhaseAdvancesByAtMostOne` | app/App.tsx:85-123 | from a reachable state, one tick or press keeps the screen or advances it by exactly one (countdown to play, play to game over), never skipping play; together with `PhaseNeverGoesBack` the screens run countdown, play, game over without skip or return |
| `MoleSession.IdleAfterGameOver` | app/App.tsx:111-123 | after game over, any run of ticks and presses leaves the whole session unchanged |
| `MoleSession.CountdownToStart` | app/App.tsx:85-94 | whatever presses and game-timer events arrive during the countdown, the countdown tick that reaches 0 starts play with 30 seconds, score 0 and the mole at its start position |
| `MoleSession.PlayToEnd` | app/App.tsx:104-123 | during play, the game tick that takes the last second ends the game and moves the mole; the score has grown by exactly the number of presses before it |
| `MoleSession.EndToEnd` | app/App.tsx:11-123 | from the mounted state, 3 countdown ticks and then 30 game ticks, with presses anywhere, end in the game-over screen; the score equals the number of presses made during play, and later events change nothing |
| `MoleGame.Game.constructor` | app/App.tsx:11-16 | the new object holds the mounted state and is valid |
| `MoleGame.Game.CountdownTick` | app/App.tsx:85-94 | updates the fields exactly as `AfterCountdownTick`, keeps them valid, and signals the background-loop start exactly when the game starts |
| `MoleGame.Game.GameTick` | app/App.tsx:104-114 | updates the fields exactly as `AfterGameTick`, keeps them valid, keeps the score, lowers the time by 1 and moves the mole during play, and signals the background-loop stop exactly when the game ends |
| `MoleGame.Game.Press` | app/App.tsx:117-123 | updates the fields exactly as `AfterPress`, keeps them valid, and reports a hit (the hit sound) exactly when the press came during play, which is exactly when the score rose by 1 |

## Left out

- Font loading and the loading screen (app/App.tsx:20-29, 125-127): asynchronous asset loading, not session state. The countdown effect does not wait for the fonts, so the countdown and even play keep running under the loading screen, with none of the three panels drawn; the model's screen selection describes the render once the fonts are loaded.
- Loading, playing and unloading of the hit sound and the background music (app/App.tsx:31-82): foreign audio calls. Only the start-loop, stop-loop and hit-sound requests are kept, as the booleans returned by the `Game` methods. The model does not capture that the music and the hit sound play only once loaded (app/App.tsx:65, 79).
- `setTimeout`/`setInterval`, their cleanup, and React's render and effect scheduling (app/App.tsx:87-90, 106-110): each timer firing is an explicit tick method, armed under the same condition as the source's effect.
- The render pass between the time reaching 0 (app/App.tsx:107) and the game-over flag being set (app/App.tsx:111-112): only the settled state is modelled, with both in one step. In the program the play panel is still shown during that render and `handleMolePress` still sees `!gameOver`, so a press during that render pass is accepted and scores a point after the clock shows 0; the model does not capture this.
- `Math.random` and floating-point arithmetic: the draws are `real` parameters in [0, 1), and the window size is a pair of `real` constructor parameters. Rounding is not modelled.
- JSX layout and `StyleSheet` values (app/App.tsx:129-237): only the three screen conditions and the mole's 140-pixel size are modelled.
