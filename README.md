# Endless Pong: the frame step, the serve and the pointer clamp

This project models the simulation core of the minimal, endless Pong
variant in `game.js`. A `Game` object holds the ball, the left (human)
paddle, the right (computer) paddle and the two scores. Three things
change it:

- `Update`: one frame of the game loop. It moves the ball and bounces it
  off the top and bottom walls. It resolves the left paddle, then the
  right paddle. It checks for a point and serves again after one. Last,
  it steps the opponent's tracker and clamps it.
- `ResetBall`: a serve from the centre of the canvas.
- `PointerMove`: the mouse and touch handlers. They centre the left
  paddle on the pointer's height and clamp it.

The model is split into three modules:

- `Physics` (`physics.dfy`) holds the value-level definitions. There is a
  datatype for the ball, the paddle, the canvas and the whole world, and
  one pure function per section of a frame. `Frame` composes them. Each
  of these functions has a contract stating what its section does, except
  `Moved`, the plain definition of the ball moving by its velocity
  (game.js:90-91), about which nothing is claimed.
- `Pong` (`game.dfy`) holds the class `Game`. Its fields are updated in
  place, section by section, in the order of `update` in game.js. Each method is proved
  to produce the state that the matching `Physics` function describes.
  `Update` calls one helper method per section of `update`.
  It is proved to keep the invariant `Valid()` and to produce exactly
  `Frame(old(State()), field, r)`.
- `Rally` (`rally.dfy`) runs any number of frames, and any interleaving
  of frames with pointer moves. It carries the per-frame guarantees over
  by induction.

Positions and speeds are exact `real`s. The canvas width and height are
constructor parameters. The constructor requires that the canvas is wider
than the ball (`width > 2 * BALL_RADIUS`), at least as tall as a paddle,
and at least as tall as the ball. Every `Math.random()` value is a
parameter of type `Draw`, a real in `[0, 1)`. The constants are those of
`game.js`: paddle 12 by 80 at a margin of 20, paddle speed 6, ball radius
10, ball speed 5, spin factor 0.2.

Some facts about `game.js` worth noting:

- game.js:78 serves with vertical speed `BALL_SPEED * (2r - 1)`, where `r`
  is a `Math.random()` value in `[0, 1)`. So the speed lies in the
  half-open interval `[-BALL_SPEED, BALL_SPEED)`. `ResetBallCovers` shows
  that every value in that interval can be served.
- game.js:127-136 runs the two score checks one after the other. A serve
  puts the ball at `width / 2`, so when the canvas is wider than the ball
  the second check cannot fire after the first. At most one point is
  awarded per frame, and one random draw per frame is enough.
- game.js:141-146 records the opponent's `dy` before clamping. After a clamp it can
  differ from the distance the paddle actually moved.
- game.js:168 and 182 are the only writes of the left paddle's `dy`, so it changes only when the pointer moves. A frame adds
  spin from the last pointer movement, however long ago it was.
- This variant has no session states, difficulty levels, timer, win score
  or match history. None of them is modelled.

## Model

| member | source | states |
|---|---|---|
| `Physics.Clamp` | game.js:144-146 | the clamp equals `max(0, min(y, height - h))` and lies in `[0, height - h]` when the paddle fits; a position already in range is kept; a paddle taller than the canvas ends at `height - h` |
| `Physics.BounceWalls` | game.js:94-101 | `x`, `dx` and the radius are unchanged; `dy` is kept or negated, so its magnitude is preserved; afterwards `radius <= y <= height - radius`; a ball already between the walls is untouched; a ball past the top (bottom) wall is put on it with `dy` negated |
| `Physics.CollideLeft` | game.js:104-113 | on a hit the ball sits at `paddle.x + paddle.width + radius`, `dx` is negated and `dy` gains exactly `paddle.dy * 0.2`; otherwise the ball is unchanged; `y` is never touched; afterwards the overlap test fails, so the ball does not stick; a ball moving left leaves moving right |
| `Physics.CollideRight` | game.js:116-124 | on a hit the ball sits at `paddle.x - radius`, `dx` is negated and `dy` gains exactly `paddle.dy * 0.2`; otherwise the ball is unchanged; `y` is never touched; afterwards the overlap test fails; a ball moving right leaves moving left |
| `Physics.ResetBall` | game.js:74-79 | the ball is at `(width/2, height/2)` with `dx == BALL_SPEED * direction` (magnitude `BALL_SPEED` for direction ±1), `-BALL_SPEED <= dy < BALL_SPEED`, and the radius is kept |
| `Physics.ResetBallCovers` | game.js:78 | every vertical speed in `[-BALL_SPEED, BALL_SPEED)` comes from some draw in `[0, 1)` |
| `Physics.Score` | game.js:127-136 | the paddles are untouched and the scores never drop; on a canvas wider than the ball, exactly one case applies: a ball past the left edge gives the right side one point and is served with direction +1; else a ball past the right edge gives the left side one point and is served with direction -1; else nothing changes |
| `Physics.AiStep` | game.js:139-146 | the paddle's `x` and size are unchanged; `|dy| <= PADDLE_SPEED`; `dy` has the sign of the distance to the target and is no longer than it; within `PADDLE_SPEED` the step lands exactly on the target, otherwise it is a full-speed step; the clamped `y` is in `[0, height - h]`; starting from a position in range, it ends between the start and the clamped target, with no overshoot |
| `Physics.PaddleAtPointer` | game.js:163-169 | the paddle's `x` and size are unchanged; `dy` equals the new `y` minus the old one; `y` is in `[0, height - h]`; when the pointer is far enough from the edges the paddle is centred on it; near the top it is at 0; near the bottom it is at `height - h` |
| `Physics.InitialWorld` | game.js:17-45 | the start state keeps the invariant; both scores are 0; both paddles are centred vertically with `dy == 0`; the ball is at the centre; `dx == ±BALL_SPEED` by the first draw; `dy` is in `[-BALL_SPEED, BALL_SPEED)` |
| `Physics.InPlay` | game.js:89-124 | after the move, the wall bounces and both paddle checks, the ball keeps its radius and the size of `dx`, and lies between the walls |
| `Physics.Frame` | game.js:88-146 | a frame keeps the invariant (canvas fits, fixed sizes, both paddles on the canvas, ball between the walls, `|dx| == BALL_SPEED`); it leaves the left paddle unchanged; the scores never drop and rise by at most one point in total; after a right (left) point the ball is at the centre with `dx == +BALL_SPEED` (`-BALL_SPEED`), moving toward the side that scored it; `|right.dy| <= PADDLE_SPEED` |
| `Rally.Run` | game.js:88-155 | over any number of frames with no pointer input, the left paddle is unchanged, the scores never drop, the invariant is kept, and no more points are scored in total than there are frames; it equals `Play` on the same draws as frame events (`RunIsPlay`) |
| `Rally.RunIsPlay` | game.js:88-155 | running frames alone is `Play` on one frame event per draw, and those events hold exactly as many frames as there are draws |
| `Rally.Play` | game.js:88-184 | over any interleaving of frames and pointer moves the invariant is kept, the scores never drop, no more points are scored in total than there are frames, and with no frames the ball, the opponent and the scores are unchanged |
| `Rally.PlayAppend` | game.js:88-184 | running two stretches of frames and pointer moves one after the other equals running them as one |
| `Rally.FromStart` | game.js:17-45 | from program start, after any interleaving of `n` frames with pointer moves, the invariant holds and at most `n` points have been scored |
| `Pong.Game.constructor` | game.js:17-45 | the new game satisfies `Valid()` and its state is `InitialWorld` for the two draws |
| `Pong.Game.ResetBall` | game.js:74-79 | only the ball changes, and it becomes `Physics.ResetBall` of the old ball |
| `Pong.Game.MoveBall` | game.js:89-91 | only the ball changes, moved by its velocity |
| `Pong.Game.BounceOffWalls` | game.js:93-101 | only the ball changes, and it becomes `BounceWalls` of the old ball |
| `Pong.Game.HitPaddles` | game.js:103-124 | only the ball changes: the left paddle check, then the right one |
| `Pong.Game.CheckScore` | game.js:126-136 | only the ball and the scores change, as `Score` says |
| `Pong.Game.MoveOpponent` | game.js:138-146 | only the right paddle changes, and it becomes `AiStep` of the old paddle for the current ball height |
| `Pong.Game.Update` | game.js:88-146 | keeps `Valid()`; the new state is `Frame` of the old one; the left paddle is unchanged; the scores never drop and rise by at most one point in total |
| `Pong.Game.PointerMove` | game.js:159-184 | keeps `Valid()`; the left paddle becomes `PaddleAtPointer` of the old one, which is the same clamp-and-record logic in both the mouse and the touch handler; nothing else changes |

## Left out

- Drawing (`drawPaddle`, `drawBall`, `drawCenterLine`, `clearRect`): graphics output only.
- `updateScore`: a DOM text write. Only the score fields are modelled.
- Canvas and context lookup, `getBoundingClientRect`, listener registration and `preventDefault`: browser I/O. `PointerMove` takes the pointer's height relative to the canvas.
- `requestAnimationFrame`: host scheduling. One frame is one call of `Update`. Many frames are `Rally.Run`; frames interleaved with pointer moves are `Rally.Play`.
- `Math.random`: each draw is a parameter of type `Draw`, in `[0, 1)`.
- IEEE double rounding: all arithmetic is exact `real` arithmetic. Nothing is claimed about floating-point behaviour.
- The ball and paddle objects are datatype values stored in the game's fields and reassigned. The source never shares these objects, so no aliasing is lost.
- The canvas size comes from the page in the source, with no check. Here it is a constructor argument that must satisfy `Fits`.
