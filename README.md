# HTML5 Pong: the simulation core in Dafny

This project models the game logic of a browser Pong: a canvas with two paddles and a ball.
The left paddle is driven by the keyboard and the right paddle by a computer player.
The model covers the moving rectangle that the ball and paddles share, with its sub-pixel motion,
the ball's serve and paddle deflection, the collision detector, the computer player's steering rule,
and the game's per-update dispatch, score keeping, key handling and the way an animation frame's
elapsed time is split into fixed steps.

Layout, one module per source file:

- `numeric.dfy` (`Numeric`) holds `Math.abs`, `parseInt` on a number (truncation toward zero) and
  `Math.round` (halves rounded upward).
- `rectangle.dfy` (`Rectangles`) holds the class `Rectangle`, whose fields the methods update in
  place. Its value views are `Geometry` (the canvas size and the box size, fixed at construction),
  `Motion` (position, speeds, accumulators) and `Box`. Each method is stated against a pure function
  of the old state (`PlacedAt`, `WithSpeed`, `MovedBy`, `Integrated`), and the lemmas are about
  those functions.
- `paddle.dfy` (`Paddles`), `ball.dfy` (`Balls`) and `computer_ai.dfy` (`Steering`) hold classes
  that own a `Rectangle` (composition replaces the prototype chain), the pure functions that
  specify their methods, and lemmas.
- `collision.dfy` (`Collisions`) holds the `Collision` tags and the detector. The detector is pure:
  it reads positions only.
- `game.dfy` (`Games`) holds the class `Game` and the value `World`, which is everything an update
  may change. `Tick` is one `update`, `Frame` is one animation frame, and the methods are proved
  against them.

Numbers are mathematical reals. JavaScript's `Infinity` threshold for a speed of 0 becomes an
explicit "speed is non-zero" test. `Math.random()` becomes a parameter `random` in `[0, 1)`, and a
frame takes one such draw per update.

Where the code does and does not keep positions on the canvas:

- Positions are not kept on the canvas by every operation. `setPosition`, `move`, `update` and
  the two `reset`s (which go through `setPosition`) clamp, but `deflectOffPaddle`
  (`Ball.js:120-123`), `followPerfectly` (`ComputerAI.js:57`) and the constructors assign
  positions directly. The model does the same: `Deflected` and `FollowedPerfectly` do not clamp,
  and only `PlacedAt`, `MovedBy`, `Integrated`, `ResetPaddle` and `ResetBall` promise bounds.
- `followPerfectly` puts the paddle's centre on the ball's top edge (`ball.posY`), not on the
  ball's centre. `FollowedPerfectly` states exactly that.
- The clamping of `setPosition` keeps a box on the canvas only when it fits (`width <= W`,
  `height <= H`). For a wider box, `x < 0` gives 0, which lies past the right limit. The in-bounds
  promises are therefore conditional on `Geometry.Fits()`.
- A move on one axis goes through `setPosition` with both coordinates, so it re-clamps the other
  coordinate too. The per-axis lemmas about `update` require that other coordinate to be on the
  canvas.
- `update` moves by the whole number of pixels the accumulated time is worth and then zeroes the
  accumulator, dropping the fraction of a pixel. Motion is exact when every update is worth a
  whole number of pixels (`SteadyMotionIsExact`); otherwise the fraction of a pixel left when the
  accumulator is zeroed is lost (`RemainderIsDropped`: four 10 ms updates at 30 px/s move 1 px
  where 1.2 px of motion was accumulated). Updates worth half a pixel each can still add up
  exactly, since the fraction is only lost at the update that crosses the threshold. At the
  game's own step of 1000/30 ms a ball at 400 px/s moves 13 px where 13.33 px was accumulated,
  i.e. 390 px/s (`FrameStepDrift`).

## Model

| member | source | states |
|---|---|---|
| `Numeric.Abs` | pong/Rectangle.js:167-168 | the result is non-negative and is `x` or `-x` |
| `Numeric.Trunc` | pong/Rectangle.js:173 | `parseInt` on a number: the integer part toward zero, within 1 of `x` on the side of 0 |
| `Numeric.RoundHalfUp` | pong/Ball.js:95 | `Math.round`: the integer `r` with `x - 0.5 < r <= x + 0.5` |
| `Numeric.RoundHalfUpOfInt` | pong/Ball.js:95 | rounding leaves an integer unchanged |
| `Rectangles.ClampCoord` | pong/Rectangle.js:83-94 | one coordinate of `setPosition`: in `[0, max]` when `max >= 0`, the input itself when already in range, otherwise 0 or `max` |
| `Rectangles.ClampIsNearest` | pong/Rectangle.js:88-94 | the clamped value is the point of `[0, max]` nearest to the input |
| `Rectangles.PlacedAt` | pong/Rectangle.js:78-95 | after `setPosition` a box that fits is on the canvas; speeds and accumulators are unchanged |
| `Rectangles.PlacedAtExact` | pong/Rectangle.js:88-94 | coordinates already on the canvas are stored exactly |
| `Rectangles.PlacedAtSnaps` | pong/Rectangle.js:88-94 | coordinates below 0 snap to 0, above the limit snap to the limit, per axis |
| `Rectangles.MovedBy` | pong/Rectangle.js:144-147 | `move(dx, dy)` is `setPosition(posX + dx, posY + dy)`: a fitting box ends on the canvas, speeds and accumulators are kept |
| `Rectangles.MovedByInBounds` | pong/Rectangle.js:144-147 | `move(dx, dy)` leaves a fitting box on the canvas and changes no speed |
| `Rectangles.MovedByZero` | pong/Rectangle.js:144-147 | `move(0, 0)` of a box on the canvas changes nothing |
| `Rectangles.WithSpeed` | pong/Rectangle.js:128-132 | `setSpeed(x, y)` sets both speeds; position and accumulators are kept |
| `Rectangles.WithSpeedOnlySpeeds` | pong/Rectangle.js:128-132 | `setSpeed` sets both speeds and leaves every other field as it was |
| `Rectangles.Reached` | pong/Rectangle.js:167-171 | the move test `accum >= abs(1000 / speed)`, false for speed 0 (where the source compares against `Infinity`); `ReachedIffScaled` gives its scaled form |
| `Rectangles.Pixels` | pong/Rectangle.js:173 | `parseInt(accum / (1000 / speed))` equals `trunc(accum * speed / 1000)` |
| `Rectangles.Integrated` | pong/Rectangle.js:155-189 | `update(dt)` keeps a fitting box that was on the canvas on the canvas, and never changes a speed |
| `Rectangles.ReachedIffScaled` | pong/Rectangle.js:167-171 | for a non-zero speed, reaching `abs(1000 / speed)` ms is the same as `accum * abs(speed) >= 1000` |
| `Rectangles.PixelsDirection` | pong/Rectangle.js:171-175 | once the threshold is reached the move is `trunc(accum * speed / 1000)` pixels, at least one, in the direction of the speed's sign |
| `Rectangles.IntegratedIdleAxis` | pong/Rectangle.js:161-171 | an axis with speed 0 neither accumulates time nor moves, for a coordinate on the canvas (a move on the other axis re-clamps it) |
| `Rectangles.IntegratedWaits` | pong/Rectangle.js:161-188 | below the threshold the position stays and the accumulator grows by exactly `dt` |
| `Rectangles.IntegratedMovesX` | pong/Rectangle.js:171-178 | at the threshold, X moves by the pixel count (clamped) and its accumulator returns to 0 |
| `Rectangles.IntegratedMovesY` | pong/Rectangle.js:181-188 | the same for Y, when Y is on the canvas before the X move re-clamps it |
| `Rectangles.IntegratedNotBehind` | pong/Rectangle.js:171-188 | a rectangle with non-negative horizontal speed, at or left of its limit, is never moved left by `update` |
| `Rectangles.IntegratedNotAhead` | pong/Rectangle.js:171-188 | a rectangle with non-positive horizontal speed, at or right of 0, is never moved right by `update` |
| `Rectangles.SteadyStep` | pong/Rectangle.js:171-178 | one update worth exactly `k` pixels moves exactly `k` pixels and leaves the accumulator at 0 |
| `Rectangles.SteadyMotionIsExact` | pong/Rectangle.js:155-189 | no drift: `n` updates each worth `k` pixels move exactly `n * k` pixels while the canvas allows it |
| `Rectangles.HundredStepsOfTenMilliseconds` | pong/Rectangle.js:155-189 | at 100 px/s, 100 updates of 10 ms move exactly 100 px |
| `Rectangles.RemainderIsDropped` | pong/Rectangle.js:171-177 | at 30 px/s four updates of 10 ms move 1 px, not the 1.2 px accumulated: the fraction is lost when the accumulator is zeroed |
| `Games.FrameStepDrift` | pong/Game.js:143-153 | one update of `1000/30` ms at 400 px/s moves 13 px, not the 13.33 px accumulated |
| `Rectangles.IsOverlapping` | pong/Rectangle.js:105-122 | the closed-interval test on both axes (a predicate; its properties are the three lemmas below) |
| `Rectangles.OverlapSymmetric` | pong/Rectangle.js:118-121 | `a.isOverlapping(b)` exactly when `b.isOverlapping(a)` |
| `Rectangles.TouchingEdgesOverlap` | pong/Rectangle.js:118-121 | boxes that only touch at a vertical edge, with meeting vertical ranges, overlap (closed intervals) |
| `Rectangles.SeparatedDoNotOverlap` | pong/Rectangle.js:118-121 | boxes separated horizontally by a positive gap do not overlap |
| `Rectangles.Rectangle.constructor` | pong/Rectangle.js:16-67 | size, position and speed are stored as given; the accumulators start at 0 |
| `Rectangles.Rectangle.SetPosition` | pong/Rectangle.js:78-95 | the new state is the clamped placement `PlacedAt` of the old one |
| `Rectangles.Rectangle.SetSpeed` | pong/Rectangle.js:128-132 | the new state is the old one with both speeds replaced |
| `Rectangles.Rectangle.Move` | pong/Rectangle.js:144-147 | the new state is `setPosition(posX + dx, posY + dy)` of the old one |
| `Rectangles.Rectangle.Update` | pong/Rectangle.js:155-189 | the new state is `Integrated` of the old one: accumulate, then move X, then move Y |
| `Paddles.ResetPaddle` | pong/Paddle.js:48-52 | after `reset` the position is the clamped `(origX, origY)`, so a fitting paddle is on the canvas; both speeds are 0; the accumulators are untouched |
| `Paddles.ResetPaddleAtOrigin` | pong/Paddle.js:48-52 | a starting position on the canvas is restored exactly |
| `Paddles.ResetPaddleIdempotent` | pong/Paddle.js:48-52 | resetting twice is the same as resetting once |
| `Paddles.Paddle.constructor` | pong/Paddle.js:21-39 | size and position come from the configuration, the speed starts at 0, and `origX/origY/moveSpeed` are recorded |
| `Paddles.Paddle.Reset` | pong/Paddle.js:48-52 | the new state is `ResetPaddle` of the old one |
| `Balls.RandInt` | pong/Ball.js:52-56 | an error exactly when `min > max`; `max` when `min == max`; otherwise a value in `[min, max]` |
| `Balls.RandIntCovers` | pong/Ball.js:55 | every integer of a non-empty range is drawn by some random value |
| `Balls.FractionOfSpan` | pong/Ball.js:55 | the draw that yields a given integer lies in `[0, 1)` and scales back to that integer's distance from `min` |
| `Balls.CalcPaddleOffset` | pong/Ball.js:79-96 | the rounded percentage of half the paddle's height by which the ball's centre is off the paddle's centre (a definition; its properties are the two lemmas below and `Steering.OffsetsAgree`) |
| `Balls.PaddleOffsetLandmarks` | pong/Ball.js:79-96 | `calcPaddleOffset` is 0 at the paddle's centre, +100 at its bottom edge and -100 at its top edge |
| `Balls.PaddleOffsetSign` | pong/Ball.js:79-96 | the offset is non-negative below the paddle's centre and non-positive above it |
| `Balls.Deflected` | pong/Ball.js:109-131 | after `deflectOffPaddle` the ball no longer overlaps the paddle; `speedX` is negated; `speedY` is 8 times the offset measured before the move; `posY` is kept; `posX` is 1 px outside the paddle on the side the ball came from |
| `Balls.DeflectedMovesAway` | pong/Ball.js:120-130 | after the deflection the ball lies beyond the paddle and heads away from it |
| `Balls.ResetBall` | pong/Ball.js:50-60 | after `reset`: the clamped starting position, `speedX == origSpeedX`, and `speedY` an integer in `[-200, 200]` |
| `Balls.ResetBallCoversSpeeds` | pong/Ball.js:52-59 | every integer vertical speed in `[-200, 200]` can come out of a reset |
| `Balls.ResetBallRepeatable` | pong/Ball.js:58-59 | two resets give the same position and horizontal speed whatever the draws |
| `Balls.Ball.constructor` | pong/Ball.js:20-41 | size, position and speed come from the configuration, and the starting position and speed are recorded |
| `Balls.Ball.Reset` | pong/Ball.js:50-60 | the new state is `ResetBall` of the old one |
| `Balls.Ball.DeflectOffPaddle` | pong/Ball.js:109-131 | the new state is `Deflected` of the old one against the paddle's box |
| `Balls.HitAtBottomEdgeExample` | pong/Ball.js:79-131 | a ball centred on the bottom edge of a 100 px paddle gets offset 100 and vertical speed 800 |
| `Collisions.IsBallAtLeftEdge` | pong/CollisionDetector.js:41-44 | `posX <= 0` (a predicate, used by `Detect`) |
| `Collisions.IsBallAtRightEdge` | pong/CollisionDetector.js:47-50 | `posX + width >= W` (a predicate, used by `Detect`) |
| `Collisions.IsBallAtTopEdge` | pong/CollisionDetector.js:53-57 | `posY <= 0` (a predicate, used by `Detect`) |
| `Collisions.IsBallAtBottomEdge` | pong/CollisionDetector.js:60-64 | `posY + height >= H` (a predicate, used by `Detect`) |
| `Collisions.Detect` | pong/CollisionDetector.js:69-89 | each tag is returned exactly when its own condition holds and no earlier one does, in the order left, right, top, bottom, left paddle, right paddle, none |
| `Collisions.EdgeBeatsPaddle` | pong/CollisionDetector.js:73-85 | a ball at the left edge is `LEFT_EDGE` even when it also overlaps the left paddle |
| `Collisions.NoneMeansInside` | pong/CollisionDetector.js:69-89 | when nothing is detected the ball lies strictly inside the canvas |
| `Steering.SteeringOffset` | pong/ComputerAI.js:28-40 | the ball's vertical centre minus the paddle's, in half paddle heights (a definition; see `OffsetsAgree` and `FollowSpeed`) |
| `Steering.OffsetsAgree` | pong/ComputerAI.js:28-40 | `calcPaddleOffset` is the steering offset as a rounded percentage: both measure the same distance |
| `Steering.FollowSpeed` | pong/ComputerAI.js:40-51 | full speed down from offset 1, full speed up from offset -1, exactly `moveSpeed * offset` in between (so strictly less than the move speed), always toward the ball, 0 when aligned |
| `Steering.ProportionalSpeed` | pong/ComputerAI.js:46-51 | a fraction strictly between -1 and 1 of the move speed stays below it and keeps the fraction's sign |
| `Steering.FollowedClosely` | pong/ComputerAI.js:25-53 | `followClosely` sets `speedX` to 0 and a vertical speed within the move speed, and keeps position and accumulators |
| `Steering.FollowedPerfectly` | pong/ComputerAI.js:55-58 | `followPerfectly` puts the paddle's centre on the ball's `posY`, unclamped, and changes nothing else |
| `Steering.ComputerAI.constructor` | pong/ComputerAI.js:19-22 | the right paddle and the ball are recorded |
| `Steering.ComputerAI.FollowClosely` | pong/ComputerAI.js:25-53 | the paddle's new state is `FollowedClosely` of the old one |
| `Steering.ComputerAI.FollowPerfectly` | pong/ComputerAI.js:55-58 | the paddle's new state is `FollowedPerfectly` of the old one |
| `Steering.ComputerAI.Update` | pong/ComputerAI.js:60-63 | `update` has exactly the effect of `followClosely` |
| `Games.ResetAll` | pong/Game.js:129-134 | `reset` keeps both scores and the pause flag, and serves the ball at its starting horizontal speed |
| `Games.Respond` | pong/Game.js:59-80 | the response adds a point to the left score exactly on `RIGHT_EDGE` and to the right score exactly on `LEFT_EDGE`, keeps the pause flag, and moves no paddle unless it resets |
| `Games.Steer` | pong/Game.js:82 | the computer player changes only the right paddle, whose horizontal speed becomes 0 and whose position is kept |
| `Games.IntegrateAll` | pong/Game.js:83-85 | moving the three rectangles keeps scores, pause flag and every speed |
| `Games.Tick` | pong/Game.js:56-86 | one update never lowers a score, raises the total by at most one, keeps the pause flag, keeps the ball moving horizontally, and keeps a horizontally still left paddle still |
| `Games.TickScores` | pong/Game.js:71-78 | over one update `LEFT_EDGE` adds exactly one to the right score, `RIGHT_EDGE` exactly one to the left score, and nothing else changes a score |
| `Games.EdgeScores` | pong/Game.js:71-78 | the response to an edge is the point for the other side followed by a reset of all three entities |
| `Games.EdgeBounce` | pong/Game.js:67-70 | top and bottom edges negate the ball's vertical speed and change nothing else |
| `Games.NoDuplicatePaddleCollision` | pong/Game.js:61-66 | after the response to a paddle collision the ball no longer overlaps that paddle |
| `Games.NoRepeatLeftPaddleCollision` | pong/Ball.js:115-123 | no duplicate collision in the next update: after a whole update that deflected the ball off the left paddle (steering and motion included), the next `detect` does not report the left paddle, for a left paddle that moves only vertically and a bounce spot on the canvas |
| `Games.NoRepeatRightPaddleCollision` | pong/Ball.js:115-123 | the same for the right paddle, which the computer player drives only vertically |
| `Games.KeyDown` | pong/Game.js:97-115 | no key press changes a score, only the reset key touches the right paddle or the ball, and none gives the left paddle a horizontal speed |
| `Games.KeyUp` | pong/Game.js:117-127 | a key release changes only the left paddle's vertical speed, so its horizontal speed stays as it was |
| `Games.PauseTwiceRestores` | pong/Game.js:107-109 | the pause key toggles the flag, and pressing it twice restores the whole state |
| `Games.ArrowKeysSteer` | pong/Game.js:100-124 | up drives the left paddle at `-moveSpeed`, down at `+moveSpeed`, and releasing either sets 0; nothing else changes |
| `Games.OtherKeysIgnored` | pong/Game.js:100-126 | a key that is not one of the controls changes nothing on press or release |
| `Games.ResetKeyKeepsScores` | pong/Game.js:110-112 | the reset key resets the entities and leaves both scores unchanged |
| `Games.FrameSteps` | pong/Game.js:151-155 | an unpaused frame of `d` ms takes `max(0, floor(d / maxDelta))` steps of `maxDelta`, then one step with the rest |
| `Games.FrameStepsShape` | pong/Game.js:151-155 | the steps add up to `d`, and the last one is shorter than `maxDelta` and not negative when `d >= 0` |
| `Games.FloorBounds` | pong/Game.js:151-154 | the whole steps fit in `d` and one more would not |
| `Games.LoopGuard` | pong/Game.js:151 | the loop condition `diffTime >= maxDelta` holds exactly while fewer whole steps than `floor(d / maxDelta)` have run |
| `Games.Run` | pong/Game.js:151-155 | a run of updates keeps the ball moving horizontally, never lowers a score, keeps the pause flag, and keeps a horizontally still left paddle still, so the requires of `NoRepeatLeftPaddleCollision` on the left paddle carries through a running game |
| `Games.RunOneMore` | pong/Game.js:151-154 | one more loop iteration is one more update after the earlier ones |
| `Games.Frame` | pong/Game.js:150-155 | a frame never lowers a score, and a paused frame runs no update and changes nothing |
| `Games.Game.constructor` | pong/Game.js:15-34 | on one shared canvas, each entity has the configured size, position and speed and records the configured starting values (`origX/origY`, `origPosX/origPosY/origSpeedX/origSpeedY`, `moveSpeed`); controls from the configuration; the three rectangles are newly allocated, so the game's methods may change them; both scores 0; not paused |
| `Games.Game.Reset` | pong/Game.js:129-134 | the new state is `ResetAll` of the old one |
| `Games.Game.Update` | pong/Game.js:56-86 | the new state is `Tick` of the old one: detect, respond, steer, then left paddle, right paddle and ball update |
| `Games.Game.OnKeyDown` | pong/Game.js:97-115 | the new state is `KeyDown` of the old one, with keys tested in the order of the `switch` |
| `Games.Game.OnKeyUp` | pong/Game.js:117-127 | the new state is `KeyUp` of the old one |
| `Games.Game.AnimationFrame` | pong/Game.js:143-155 | the new state is `Frame` of the old one: nothing when paused, otherwise the `while` loop's updates of `maxDelta` followed by the last update with the rest |

## Left out

- Rendering is not modelled: `Rectangle.draw`, `Game.clear` and `Game.draw`, the scoreboard's drawing, the start screen, and colours. The two scores are plain fields of `Game`.
- Browser plumbing is not modelled: the `requestAnimFrame` shim, `performance.now()`, the `window.onkeydown/onkeyup` wiring, `init`, and decoding `event.key` into a key string. `AnimationFrame` takes the measured elapsed time, and the key handlers take the decoded key.
- The default values in `pong/Configuration.js` are not built in. The game takes a `Configuration` value instead.
- The collision detector object only stores references to the paddles and the ball. `Detect` takes their boxes as arguments.
- `Math.random()` is a parameter in `[0, 1)`, not a generator.
- IEEE-754 arithmetic is not modelled: `Infinity`, `NaN`, `-0`, and rounding in divisions and in the repeated `diffTime -= maxDelta`. The model uses exact reals.
- `Numeric.Trunc`: `parseInt` converts its number to a string first, so it truncates only for `1e-6 <= |x| < 1e21` (`parseInt(1e21)` is 1). `update` calls it with `|x| >= 1`; the model does not capture the upper limit.
- `Balls.Ball.DeflectOffPaddle`: the source throws when `speedX` is 0. Here a non-zero `speedX` is a precondition.
- `Games.Game.Update`: requires `CanRespond`, which says a detected paddle collision involves a ball with non-zero `speedX`. This keeps the update clear of that throw.
- `Games.Game.AnimationFrame`: requires the ball's current and starting horizontal speeds to be non-zero, and enough random draws for every update. Under these conditions `Run` proves that no update in the frame reaches the throw. The source has neither requirement.
- `Steering.ComputerAI.FollowClosely`: requires a right paddle of positive height. The source divides by half the height and would produce `NaN` or `Infinity` for height 0. `Balls.Deflected`, `Games.Game.Update` and `Games.Game.constructor` require the same of both paddles.
- Prototype inheritance is replaced by composition: `Ball` and `Paddle` each own a `Rectangle`.
