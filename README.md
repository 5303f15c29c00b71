# Air Juggler, modelled in Dafny

Air Juggler is a browser game. A webcam hand tracker turns each detected hand
into a paddle. The player keeps a falling block-ball in the air by bouncing it
off those paddles, and scores one point per second survived. A short
countdown comes first. The game ends when the ball drops below the bottom of
the canvas, and the final score goes onto a top-five leaderboard.

This project models the game's deterministic logic and proves properties of
it. The model has five modules:

- `Physics` (`physics.dfy`) covers `updateBalls` and `checkCollisions`.
  - Each ball record is a `class Ball` updated in place.
  - Each method is proved equal to a pure function: `Advance` for the
    gravity step and wall bounce, and `Collide`/`CollideAll` for the
    paddles, taken in list order.
  - Lemmas about those functions give the geometric facts:
    - bounds after the bounce;
    - the hit test as a squared-distance comparison;
    - the push-out to exactly the collision radius, on the paddle→ball ray.
- `HandTracking` (`hand_tracking.dfy`) covers the hand feed.
  - The palm-centre reduction of a detection cycle is a set of pure functions.
  - The module-level detector, video, callback and `isDetecting` state is a
    `class Tracker`.
- `Leaderboard` (`leaderboard.dfy`) covers the leaderboard.
  - `saveScore` appends, sorts descending with a stable sort and keeps five.
  - It is a pure `SaveList` with its properties proved, plus a `class Store`
    that holds what `localStorage` holds.
- `JugglerGame` (`game.dfy`) covers a session.
  - `Tick` is the pure tick function and `GameState` the `gameState` value.
  - `class Game` holds the mutable `gameState`. Its `GameLoop` is proved to
    perform `Tick`.
  - Lemmas cover the countdown, the score and the end of the game.
- `AirJuggler` (`app.dfy`) covers `startGame`: the reset, the one-time
  tracking setup with its failure path, and the first tick. It also covers
  how a detection cycle's output reaches the game.

`Geometry` (`geometry.dfy`) holds points, the squared distance and the
`MathLib` record. `Optional` (`optional.dfy`) holds `Option`.

How the JavaScript maps onto the model:

- Numbers are `real`. Timestamps are `int` milliseconds, passed in by the
  caller in place of `Date.now()`. The leaderboard's date string is passed
  in the same way, in place of `toLocaleString()`.
- `Math.sqrt`, `Math.atan2`, `Math.cos` and `Math.sin` are a `MathLib`
  parameter.
  - The collision code calls them exactly as the source does.
  - The predicate `Exact(m)` states what the proofs need of them:
    - `sqrt` is the non-negative root;
    - `cos`/`sin` of `atan2(y, x)` form a unit vector parallel to `(x, y)`
      that points the same way;
    - `atan2(0, 0) = 0`, `cos 0 = 1` and `sin 0 = 0`.
- JavaScript truthiness of `startTime` is written out: the clock has
  started only when `startTime` is set and not zero.
- `Array.prototype.sort` is stable, so it is modelled by a stable insertion
  sort. On a tie the new score, pushed last, ranks after the older equal
  scores.
- A hand with fewer than 18 landmarks makes `kp.x` throw inside the `map`.
  The exception aborts the whole list. `detectHands` swallows the error, so
  no positions are delivered, and the next cycle is still scheduled. The
  model returns `None` in that case.

A corrupt stored leaderboard string would make `JSON.parse` throw inside
`getLeaderboard` (starter/game.js:178-179); it is not read as empty. The model
stores entries, not text, so a corrupt store cannot arise at all.

## Model

| member | source | states |
|---|---|---|
| Physics.Spawned | starter/game.js:35-42 | a spawned ball is at rest, 32 px, and on a canvas at least one ball wide it lies between the walls and below the ceiling |
| Physics.Advance | starter/game.js:56-69 | one ball's `updateBalls` step, integration then bounce; keeps the size and, on a canvas at least one ball wide, leaves the ball on it |
| Physics.AdvanceAll | starter/game.js:55-71 | `updateBalls` over the list: one result per ball, in order |
| Physics.Hits | starter/game.js:76-79 | the source's hit test, `sqrt(dx²+dy²) < size/2 + handSize/2`, with `Math.sqrt` from the `MathLib` parameter |
| Physics.CollideAll | starter/game.js:75-89 | one ball against the paddles cumulatively, in list order; keeps the size |
| Physics.CollideEach | starter/game.js:73-91 | `checkCollisions` over the list: one result per ball, in order |
| Physics.Integrate | starter/game.js:56-59 | `vy` grows by gravity first; `x` moves by the old `vx`, `y` by the new `vy`; `vx` and size unchanged |
| Physics.BounceWalls | starter/game.js:60-69 | `vx` is negated exactly when a side wall was crossed, `vy` exactly when the top was; a crossing clamps the ball to the exact edge (`x` to `size/2` on the left half, `width − size/2` on the right; `y` to `size/2`), not back by the penetration depth; an uncrossed coordinate is unchanged; afterwards `y ≥ size/2`, and when the canvas is at least one ball wide the ball lies between the walls |
| Physics.AdvanceAllOnCanvas | starter/game.js:55-71 | after `updateBalls` every ball no wider than the canvas is between the side walls and below the ceiling |
| Physics.HitsIffWithinReach | starter/game.js:76-79 | the source's test `sqrt(dx²+dy²) < size/2 + handSize/2` holds exactly when `dx²+dy² < R²` |
| Physics.Collide | starter/game.js:76-88 | a miss leaves the ball unchanged; a hit sets `vy` to −7.5 and adds `0.14·dx` to `vx` |
| Physics.HitReachPositive | starter/game.js:79 | a hit is only possible with a positive collision radius |
| Physics.PushedToReach | starter/game.js:83-87 | after a hit, the ball's squared distance to the paddle is exactly `R²` |
| Physics.PushedAlongLine | starter/game.js:83-87 | after a hit, the ball lies on the line through the paddle and its old position |
| Physics.PushedOutward | starter/game.js:82-87 | after a hit from off-centre, the ball lies on the paddle→ball side of the paddle (the ray, not the opposite ray) |
| Physics.CentredGoesRight | starter/game.js:83-87 | a ball dead centre on a paddle is pushed to `(hand.x + R, hand.y)`, since `atan2(0, 0) = 0` |
| Physics.CentredHit | starter/game.js:76-87 | a 32 px ball falling at `vy = 5` dead centre on a paddle ends 40 px to its right, with `vx = 0` and `vy = −7.5` |
| Physics.BounceOverrides | starter/game.js:74-90 | over the paddle list in order, a ball hit by some paddle ends with `vy = −7.5`, and a ball hit by none is unchanged |
| Physics.Ball.constructor | starter/game.js:35-42 | a new ball sits at `(width/2, 120)` at rest, 32 px in size |
| Physics.Ball.Update | starter/game.js:56-69 | the in-place gravity step and bounce leave the ball at `Advance` of its old state |
| Physics.Ball.CollideHand | starter/game.js:76-88 | the in-place test and push-out against one paddle leave the ball at `Collide` of its old state |
| Physics.Ball.CollideHands | starter/game.js:75-89 | the ball meets the paddles cumulatively, in list order, ending at `CollideAll` of its old state |
| HandTracking.SumX | starter/handTracking.js:57 | the `reduce` of the `x` coordinates from 0, left to right |
| HandTracking.SumY | starter/handTracking.js:58 | the `reduce` of the `y` coordinates from 0, left to right |
| HandTracking.Mirror | starter/handTracking.js:60 | the mirrored coordinate and the original add up to 640 |
| HandTracking.PalmCenter | starter/handTracking.js:55-62 | one hand's paddle: the mirrored mean `x` and the mean `y` of the palm base |
| HandTracking.PalmBase | starter/handTracking.js:56 | the palm base is the five landmarks 0, 5, 9, 13, 17, in that order |
| HandTracking.HandPositions | starter/handTracking.js:54-63 | positions exist exactly when every hand has its palm landmarks; then there is one position per hand, in the hands' order, each that hand's palm centre |
| HandTracking.PalmCenterIsMean | starter/handTracking.js:56-61 | a paddle is `(640 − mean x, mean y)` of landmarks 0, 5, 9, 13, 17 |
| HandTracking.FiveSums | starter/handTracking.js:57-58 | the two `reduce` folds over five landmarks are the plain sums |
| HandTracking.OnlyPalmMatters | starter/handTracking.js:56-58 | hands that agree on the five palm landmarks get the same paddle |
| HandTracking.MirrorInvolution | starter/handTracking.js:60 | mirroring `640 − x` twice gives back `x` |
| HandTracking.PalmCenterInFrame | starter/handTracking.js:57-60 | palm landmarks within `[0, 640]` give a mirrored `x` within `[0, 640]` |
| HandTracking.Tracker.constructor | starter/handTracking.js:2-5 | detector, video, callback unset and `isDetecting` false |
| HandTracking.Tracker.Setup | starter/handTracking.js:7-35 | the video and the callback are stored; the detector is stored and the result is true exactly when the video exists and camera and model came up; `isDetecting` is untouched |
| HandTracking.Tracker.StartDetection | starter/handTracking.js:37-44 | detection starts exactly when detector and video are set; otherwise nothing changes |
| HandTracking.Tracker.StopDetection | starter/handTracking.js:46-48 | `isDetecting` is false afterwards; nothing else changes |
| HandTracking.Tracker.DetectHands | starter/handTracking.js:50-71 | with the flag down it returns at once: nothing delivered, no next cycle; with it up the next cycle is always scheduled, even after an error; positions reach the callback only when one is registered, the estimate succeeded and every hand had a palm, and they are then `HandPositions` of the hands |
| Leaderboard.Insert | starter/game.js:174 | one insertion step of the stable sort; the result is one longer |
| Leaderboard.Sort | starter/game.js:174 | `sort((a, b) => b.score - a.score)` as a stable insertion sort; keeps the length |
| Leaderboard.SaveList | starter/game.js:171-176 | the list `saveScore` stores: the sorted old list plus the new entry, cut to `min(5, old length + 1)` entries |
| Leaderboard.SortPermutes | starter/game.js:174 | the sort is a permutation |
| Leaderboard.SortSorts | starter/game.js:174 | the sort orders by descending score |
| Leaderboard.SortStable | starter/game.js:174 | equal scores keep their relative order |
| Leaderboard.SortFixesSorted | starter/game.js:174 | an already sorted list is left as it is |
| Leaderboard.SaveShape | starter/game.js:171-176 | sorting with the new entry gives the sorted old list with the new entry slotted in right after every old entry scoring at least as much |
| Leaderboard.SaveBounded | starter/game.js:174 | the stored list has `min(5, old length + 1)` entries, so never more than five |
| Leaderboard.SaveSorted | starter/game.js:174 | the stored list is sorted by descending score |
| Leaderboard.SaveFromOldOrNew | starter/game.js:172-174 | every stored entry is an old entry or the new one, and no entry is stored more often than it occurs among them |
| Leaderboard.SaveKeepsNew | starter/game.js:172-174 | with fewer than five old entries scoring at least as much, the new entry is stored at the rank after them |
| Leaderboard.SaveDropsNew | starter/game.js:174 | with five or more old entries scoring at least as much, the stored list is the top five old entries |
| Leaderboard.SaveShowsScore | starter/game.js:172-174 | with fewer than five old entries scoring strictly more, the new score appears on the board |
| Leaderboard.SaveIntoSorted | starter/game.js:174 | saving into a sorted board that the new score does not enter leaves its first five entries |
| Leaderboard.Store.constructor | starter/game.js:177-180 | nothing is stored at first |
| Leaderboard.Store.GetLeaderboard | starter/game.js:177-180 | nothing stored reads as the empty list; otherwise the stored list |
| Leaderboard.Store.SaveScore | starter/game.js:171-176 | the stored list becomes `SaveList` of the previous one and the new entry |
| JugglerGame.WithScore | starter/game.js:97-102 | `updateScore`: only the score can change, and only when the clock has started and the game is not over |
| JugglerGame.Spawn | starter/game.js:32-44 | `initBalls`' list: `ballCount` balls, each spawned at `(width/2, 120)` at rest |
| JugglerGame.Restarted | starter/game.js:193-199 | the state `startGame` sets before the first tick: fresh balls, no paddles, score 0, not over, clock unset, countdown 3 and counting |
| JugglerGame.Tick | starter/game.js:149-168 | one `gameLoop` tick: a finished game is unchanged; the paddles and the number of balls never change; a countdown tick moves no ball, keeps the score and never ends the game; a running tick stays running |
| JugglerGame.Run | starter/game.js:149-168 | successive ticks at the given times, in order |
| JugglerGame.Message | starter/game.js:226-231 | the verdict is one of "Amazing!", "Great Job!" and "Game Over!" |
| JugglerGame.ElapsedSeconds | starter/game.js:99 | the score is the whole number of seconds elapsed: `r·1000 ≤ now − start < (r+1)·1000` |
| JugglerGame.AnyFallen | starter/game.js:93-95 | true exactly when some ball has `y − size/2 > height` |
| JugglerGame.OverIsFinal | starter/game.js:150 | once the game is over, any number of ticks changes nothing |
| JugglerGame.CountdownTick | starter/game.js:151-156 | a countdown tick moves no ball and changes neither score nor paddles; it takes `1/60` off the countdown and ends the countdown, setting `startTime` to now, exactly when it reaches zero |
| JugglerGame.FirstTick | starter/game.js:151-156 | the first tick after `startGame`'s reset only takes `1/60` off the countdown of 3 |
| JugglerGame.RunningTick | starter/game.js:157-165 | a running tick moves the balls by `updateBalls` then `checkCollisions`, scores when the clock has started, and ends the game exactly when a ball has then fallen |
| JugglerGame.CountdownRuns | starter/game.js:151-156 | from a fresh start, tick `k ≤ 180` leaves `3 − k/60`; the countdown ends exactly at tick 180, with `startTime` the time of that tick, and the balls do not move before |
| JugglerGame.ElapsedMonotone | starter/game.js:99 | a later clock never shows fewer elapsed seconds |
| JugglerGame.RestartCoherent | starter/game.js:193-199 | a fresh start satisfies the score invariant: score 0, clock unset |
| JugglerGame.ScoreNeverDecreases | starter/game.js:97-102 | with the clock not running backwards, a tick never lowers the score, keeps it non-negative and no greater than the elapsed seconds |
| JugglerGame.RunScoreNeverDecreases | starter/game.js:97-102 | over any run with an ascending clock, the score only grows and stays non-negative |
| JugglerGame.MessageTiers | starter/game.js:225-231 | "Amazing!" exactly above 30, "Great Job!" exactly from 16 to 30, "Game Over!" exactly at 15 or less |
| JugglerGame.Game.constructor | starter/game.js:12-21 | the initial `gameState`: no balls, no paddles, score 0, not over, no clock, no countdown |
| JugglerGame.Game.InitBalls | starter/game.js:32-44 | the ball list is replaced by `ballCount` new, distinct balls, each at `(width/2, 120)` at rest; nothing else changes |
| JugglerGame.Game.UpdateBalls | starter/game.js:55-71 | every ball is advanced in place, each to `Advance` of its old state |
| JugglerGame.Game.CheckCollisions | starter/game.js:73-91 | every ball meets every paddle in place, each ball ending at `CollideAll` of its old state |
| JugglerGame.Game.CheckGameOver | starter/game.js:93-95 | true exactly when some ball record has `y − size/2 > height` |
| JugglerGame.Game.UpdateScore | starter/game.js:97-102 | the score becomes the elapsed seconds when the clock has started and the game is not over, and nothing else changes |
| JugglerGame.Game.EndGame | starter/game.js:222-231 | the game is over, the score is saved with the given date, and the verdict for the score is returned |
| JugglerGame.Game.GameLoop | starter/game.js:149-168 | one tick is `Tick` of the old state; the score is saved and the verdict returned exactly when this tick ended the game |
| JugglerGame.Game.RunFrame | starter/game.js:157-165 | the running branch is `Tick` of the old state; the score is saved and the verdict returned exactly when a ball has fallen |
| JugglerGame.Game.Reset | starter/game.js:193-199 | score 0, not over, no clock, no paddles, countdown 3 and counting, and fresh balls |
| JugglerGame.Game.ReceiveHands | starter/game.js:206-208 | the paddle list is replaced wholesale; nothing else changes |
| AirJuggler.App.constructor | starter/game.js:12-21 | a new game, a new tracker, tracking not yet set up |
| AirJuggler.App.EnsureTracking | starter/game.js:201-217 | setup runs only while tracking is not set up, and a replay leaves the tracker untouched; tracking is up afterwards exactly when it was before or the video, camera and model all came up; a setup attempt registers the callback and the video, sets the detector exactly on success (a failure leaves it as it was) and then starts detection |
| AirJuggler.App.StartGame | starter/game.js:192-220 | after the reset, a failed tracking setup ends the game at once, saving a score of 0, and leaves the camera message; otherwise the first tick has been taken and the session is the fresh one with `3 − 1/60` on the countdown; on a replay the tracker is untouched, and after a first setup the callback and video are registered and the detector and detection are on exactly when the setup succeeded |
| AirJuggler.App.DetectionCycle | starter/handTracking.js:50-71 | a cycle that delivers replaces the game's paddles with the positions of the hands; otherwise the game is unchanged; the next cycle is scheduled exactly when detection is on |

## Left out

- Rendering (`render`, `drawPixelBlock`): drawing only, with no state change.
- DOM and overlay work (`innerHTML`, the emoji, `leaderboardHTML`, the loading overlay, button text, `alert`, the clear-leaderboard button): user interface only.
- `localStorage` and JSON: the store holds the entry list as a value, so a corrupt stored string cannot be represented.
- The date string of a saved score: it is an opaque parameter.
- `requestAnimationFrame`, `cancelAnimationFrame`, `setTimeout` and `async`/`await`: a tick and a detection cycle are each one method call, and their order is up to the caller. `animationId` is not modelled.
- Camera access, model loading and `estimateHands`: external I/O and a black-box detector. Whether the camera and the model came up is a boolean parameter, and the detector's output is an `Option` of hand lists.
- `checkTensorFlowLoaded`: library-loading glue.
- Ball colour: display only.
- `console.log` and `console.error` calls (starter/handTracking.js:26, 29, 39, 68): diagnostics only, with no state change.
- IEEE-754 rounding: all arithmetic is exact `real`. The countdown is the most visible consequence. In floating point, 180 successive subtractions of `1/60` from 3 leave a tiny positive number (about 5.7e-15) rather than 0, so the countdown actually ends at tick 181, one tick later than `CountdownRuns` states.
- `Math.sqrt`, `Math.atan2`, `Math.cos` and `Math.sin` are the `MathLib` parameter. Every push-out property assumes `Exact(m)`, not the floating-point routines.
- Physics.Collide: it does not state the push-out position itself. `PushedToReach`, `PushedAlongLine`, `PushedOutward` and `CentredGoesRight` state it.
