/**
  Value-level model of one simulation frame of the endless Pong game:
  the ball, the two paddles, the scores, and the functions that say what
  each part of a frame does to them. Positions and velocities are exact
  reals; the game object in module Pong is proved to follow these
  functions field by field.
 */
module Physics {

  // Paddle settings
  const PADDLE_WIDTH: real := 12.0
  const PADDLE_HEIGHT: real := 80.0
  const PADDLE_MARGIN: real := 20.0
  const PADDLE_SPEED: real := 6.0

  // Ball settings
  const BALL_RADIUS: real := 10.0
  const BALL_SPEED: real := 5.0

  /** Share of the paddle's last displacement added to the ball's vertical speed on a hit. */
  const SPIN: real := 0.2

  /** A value returned by the host's uniform random source: in [0, 1). */
  type Draw = r: real | 0.0 <= r < 1.0 witness 0.0

  /** Ball: centre, radius and velocity per frame. */
  datatype Ball = Ball(x: real, y: real, radius: real, dx: real, dy: real)

  /** Paddle: top-left corner, size, and the last vertical displacement (the spin source). */
  datatype Paddle = Paddle(x: real, y: real, width: real, height: real, dy: real)

  /** The canvas the game is played on. */
  datatype Field = Field(width: real, height: real)

  /** Everything one frame reads and writes. */
  datatype World = World(ball: Ball, left: Paddle, right: Paddle, leftScore: nat, rightScore: nat)

  /** A canvas large enough for the constants above. */
  predicate Fits(f: Field)
  {
    f.width > 2.0 * BALL_RADIUS && f.height >= PADDLE_HEIGHT && f.height >= 2.0 * BALL_RADIUS
  }

  function Abs(x: real): real { if x < 0.0 then -x else x }

  function Min(a: real, b: real): real { if a <= b then a else b }

  function Max(a: real, b: real): real { if a >= b then a else b }

  /** Math.sign on reals. */
  function Sign(x: real): real { if x > 0.0 then 1.0 else if x < 0.0 then -1.0 else 0.0 }

  /** The paddle's vertical range of free positions: its top edge in [0, height - paddle height]. */
  predicate InRange(y: real, h: real, height: real)
  {
    0.0 <= y <= height - h
  }

  /** Paddle of the given x offset with the game's fixed size. */
  predicate PaddleShape(p: Paddle, x: real)
  {
    p.x == x && p.width == PADDLE_WIDTH && p.height == PADDLE_HEIGHT
  }

  /**
    The invariant every frame keeps: the canvas fits, the fixed sizes and
    offsets are in place, both paddles lie inside the canvas, the ball
    lies between the walls and moves sideways at exactly BALL_SPEED.
   */
  predicate Inv(f: Field, w: World)
  {
    && Fits(f)
    && w.ball.radius == BALL_RADIUS
    && PaddleShape(w.left, PADDLE_MARGIN)
    && PaddleShape(w.right, f.width - PADDLE_MARGIN - PADDLE_WIDTH)
    && InRange(w.left.y, w.left.height, f.height)
    && InRange(w.right.y, w.right.height, f.height)
    && BALL_RADIUS <= w.ball.y <= f.height - BALL_RADIUS
    && Abs(w.ball.dx) == BALL_SPEED
  }

  /**
    The two-step clamp of a paddle's top edge: first below at 0, then
    above at height - h. When the paddle is taller than the canvas the
    second step wins.
   */
  function Clamp(y: real, h: real, height: real): (c: real)
    ensures h <= height ==> c == Max(0.0, Min(y, height - h))
    ensures h <= height ==> InRange(c, h, height)
    ensures InRange(y, h, height) ==> c == y
    ensures height < h ==> c == height - h
  {
    var low := if y < 0.0 then 0.0 else y;
    if low + h > height then height - h else low
  }

  /** Top and bottom walls (each check in turn): clamp y to the wall and negate dy. */
  function BounceWalls(b: Ball, height: real): (r: Ball)
    ensures r.x == b.x && r.dx == b.dx && r.radius == b.radius
    ensures r.dy == b.dy || r.dy == -b.dy
    ensures 2.0 * b.radius <= height ==> b.radius <= r.y <= height - b.radius
    ensures b.radius <= b.y <= height - b.radius ==> r == b
    ensures 2.0 * b.radius <= height && b.y < b.radius ==> r.y == b.radius && r.dy == -b.dy
    ensures b.radius <= b.y && b.y > height - b.radius ==> r.y == height - b.radius && r.dy == -b.dy
  {
    var top := if b.y - b.radius < 0.0 then b.(y := b.radius, dy := -b.dy) else b;
    if top.y + top.radius > height then top.(y := height - top.radius, dy := -top.dy) else top
  }

  /** The overlap test against the left paddle's right face. */
  predicate HitsLeft(b: Ball, p: Paddle)
  {
    b.x - b.radius < p.x + p.width && b.y > p.y && b.y < p.y + p.height
  }

  /** The overlap test against the right paddle's left face. */
  predicate HitsRight(b: Ball, p: Paddle)
  {
    b.x + b.radius > p.x && b.y > p.y && b.y < p.y + p.height
  }

  /**
    Left paddle collision: the ball is put against the paddle's face, its
    horizontal velocity is reversed and it picks up spin. Once resolved,
    the overlap test no longer holds, so the ball does not stick.
   */
  function CollideLeft(b: Ball, p: Paddle): (r: Ball)
    ensures r.y == b.y && r.radius == b.radius
    ensures HitsLeft(b, p) ==>
      r.x == p.x + p.width + b.radius && r.dx == -b.dx && r.dy == b.dy + p.dy * SPIN
    ensures !HitsLeft(b, p) ==> r == b
    ensures !HitsLeft(r, p)
    ensures HitsLeft(b, p) && b.dx < 0.0 ==> r.dx > 0.0
  {
    if HitsLeft(b, p) then b.(x := p.x + p.width + b.radius, dx := -b.dx, dy := b.dy + p.dy * SPIN)
    else b
  }

  /** Right paddle collision, mirrored. */
  function CollideRight(b: Ball, p: Paddle): (r: Ball)
    ensures r.y == b.y && r.radius == b.radius
    ensures HitsRight(b, p) ==>
      r.x == p.x - b.radius && r.dx == -b.dx && r.dy == b.dy + p.dy * SPIN
    ensures !HitsRight(b, p) ==> r == b
    ensures !HitsRight(r, p)
    ensures HitsRight(b, p) && b.dx > 0.0 ==> r.dx < 0.0
  {
    if HitsRight(b, p) then b.(x := p.x - b.radius, dx := -b.dx, dy := b.dy + p.dy * SPIN)
    else b
  }

  /**
    The ball back at the centre of the field, served in the given
    direction with a vertical speed drawn from [-BALL_SPEED, BALL_SPEED).
   */
  function ResetBall(b: Ball, f: Field, direction: int, r: Draw): (nb: Ball)
    ensures nb.x == f.width / 2.0 && nb.y == f.height / 2.0 && nb.radius == b.radius
    ensures nb.dx == BALL_SPEED * direction as real
    ensures direction == 1 || direction == -1 ==> Abs(nb.dx) == BALL_SPEED
    ensures -BALL_SPEED <= nb.dy < BALL_SPEED
  {
    Ball(f.width / 2.0, f.height / 2.0, b.radius, BALL_SPEED * direction as real, BALL_SPEED * (r * 2.0 - 1.0))
  }

  /** Every vertical speed in [-BALL_SPEED, BALL_SPEED) is served by some draw. */
  lemma ResetBallCovers(b: Ball, f: Field, direction: int, dy: real)
    requires -BALL_SPEED <= dy < BALL_SPEED
    ensures exists r: Draw :: ResetBall(b, f, direction, r).dy == dy
  {
    var r: Draw := (dy / BALL_SPEED + 1.0) / 2.0;
    assert ResetBall(b, f, direction, r).dy == dy;
  }

  /**
    The score check: a ball past the left edge is a point for the right
    side and is served toward the right; then a ball past the right edge
    is a point for the left side and is served toward the left. On a
    canvas wider than the ball, at most one of the two fires.
   */
  function Score(w: World, f: Field, r: Draw): (s: World)
    ensures s.left == w.left && s.right == w.right
    ensures s.leftScore >= w.leftScore && s.rightScore >= w.rightScore
    ensures s.ball.radius == w.ball.radius
    ensures f.width > 2.0 * w.ball.radius ==> (
      if w.ball.x - w.ball.radius < 0.0 then
        s.rightScore == w.rightScore + 1 && s.leftScore == w.leftScore && s.ball == ResetBall(w.ball, f, 1, r)
      else if w.ball.x + w.ball.radius > f.width then
        s.leftScore == w.leftScore + 1 && s.rightScore == w.rightScore && s.ball == ResetBall(w.ball, f, -1, r)
      else
        s == w)
  {
    var afterLeftExit :=
      if w.ball.x - w.ball.radius < 0.0 then
        w.(rightScore := w.rightScore + 1, ball := ResetBall(w.ball, f, 1, r))
      else w;
    if afterLeftExit.ball.x + afterLeftExit.ball.radius > f.width then
      afterLeftExit.(leftScore := afterLeftExit.leftScore + 1, ball := ResetBall(afterLeftExit.ball, f, -1, r))
    else afterLeftExit
  }

  /**
    The opponent: a proportional tracker of the ball's height, capped at
    PADDLE_SPEED, followed by the clamp. dy keeps the unclamped step.
   */
  function AiStep(p: Paddle, ballY: real, height: real): (r: Paddle)
    ensures r.x == p.x && r.width == p.width && r.height == p.height
    ensures Abs(r.dy) <= PADDLE_SPEED
    ensures var diff := ballY - p.height / 2.0 - p.y;
      && (diff >= 0.0 ==> 0.0 <= r.dy <= diff)
      && (diff <= 0.0 ==> diff <= r.dy <= 0.0)
      && (Abs(diff) <= PADDLE_SPEED ==> p.y + r.dy == ballY - p.height / 2.0)
      && (Abs(diff) > PADDLE_SPEED ==> Abs(r.dy) == PADDLE_SPEED)
    ensures r.y == Clamp(p.y + r.dy, p.height, height)
    ensures p.height <= height ==> InRange(r.y, r.height, height)
    ensures p.height <= height && InRange(p.y, p.height, height) ==>
      var ct := Clamp(ballY - p.height / 2.0, p.height, height);
      (p.y <= r.y <= ct) || (ct <= r.y <= p.y)
  {
    var target := ballY - p.height / 2.0;
    var diff := target - p.y;
    var dy := Sign(diff) * Min(PADDLE_SPEED, Abs(diff));
    p.(dy := dy, y := Clamp(p.y + dy, p.height, height))
  }

  /**
    The pointer handler's paddle: centred on the pointer, clamped to the
    canvas, with dy recording the displacement for the next spin.
   */
  function PaddleAtPointer(p: Paddle, pointerY: real, height: real): (r: Paddle)
    ensures r.x == p.x && r.width == p.width && r.height == p.height
    ensures r.dy == r.y - p.y
    ensures p.height <= height ==> InRange(r.y, r.height, height)
    ensures InRange(pointerY - p.height / 2.0, p.height, height) ==> r.y + r.height / 2.0 == pointerY
    ensures p.height <= height && pointerY < p.height / 2.0 ==> r.y == 0.0
    ensures pointerY > height - p.height / 2.0 ==> r.y == height - p.height
  {
    var newY := Clamp(pointerY - p.height / 2.0, p.height, height);
    p.(dy := newY - p.y, y := newY)
  }

  /** The world at program start; r1 picks the serve direction, r2 the vertical speed. */
  function InitialWorld(f: Field, r1: Draw, r2: Draw): (w: World)
    requires Fits(f)
    ensures Inv(f, w)
    ensures w.leftScore == 0 && w.rightScore == 0
    ensures w.left.y == w.right.y == f.height / 2.0 - PADDLE_HEIGHT / 2.0 && w.left.dy == w.right.dy == 0.0
    ensures w.ball.x == f.width / 2.0 && w.ball.y == f.height / 2.0
    ensures w.ball.dx == (if r1 > 0.5 then BALL_SPEED else -BALL_SPEED)
    ensures -BALL_SPEED <= w.ball.dy < BALL_SPEED
  {
    World(
      Ball(f.width / 2.0, f.height / 2.0, BALL_RADIUS,
           BALL_SPEED * (if r1 > 0.5 then 1.0 else -1.0), BALL_SPEED * (r2 * 2.0 - 1.0)),
      Paddle(PADDLE_MARGIN, f.height / 2.0 - PADDLE_HEIGHT / 2.0, PADDLE_WIDTH, PADDLE_HEIGHT, 0.0),
      Paddle(f.width - PADDLE_MARGIN - PADDLE_WIDTH, f.height / 2.0 - PADDLE_HEIGHT / 2.0,
             PADDLE_WIDTH, PADDLE_HEIGHT, 0.0),
      0, 0)
  }

  /** The ball after one frame's movement. */
  function Moved(b: Ball): Ball
  {
    b.(x := b.x + b.dx, y := b.y + b.dy)
  }

  /** The ball after moving, the wall bounces and both paddle checks, before scoring. */
  function InPlay(w: World, f: Field): (b: Ball)
    ensures b.radius == w.ball.radius
    ensures Abs(b.dx) == Abs(w.ball.dx)
    ensures 2.0 * w.ball.radius <= f.height ==> w.ball.radius <= b.y <= f.height - w.ball.radius
  {
    CollideRight(CollideLeft(BounceWalls(Moved(w.ball), f.height), w.left), w.right)
  }

  /**
    One frame: move, bounce off the walls, resolve the left then the right
    paddle, score, then step the opponent. The frame keeps the invariant,
    never touches the left paddle, and awards at most one point; a point
    re-serves the ball from the centre toward the side that scored it.
   */
  function Frame(w: World, f: Field, r: Draw): (w': World)
    ensures w'.left == w.left
    ensures w'.leftScore >= w.leftScore && w'.rightScore >= w.rightScore
    ensures Inv(f, w) ==> Inv(f, w')
    ensures Inv(f, w) ==> w'.leftScore + w'.rightScore <= w.leftScore + w.rightScore + 1
    ensures Inv(f, w) && w'.rightScore > w.rightScore ==>
      w'.ball.x == f.width / 2.0 && w'.ball.y == f.height / 2.0 && w'.ball.dx == BALL_SPEED
    ensures Inv(f, w) && w'.leftScore > w.leftScore ==>
      w'.ball.x == f.width / 2.0 && w'.ball.y == f.height / 2.0 && w'.ball.dx == -BALL_SPEED
    ensures Abs(w'.right.dy) <= PADDLE_SPEED
  {
    var scored := Score(w.(ball := InPlay(w, f)), f, r);
    scored.(right := AiStep(scored.right, scored.ball.y, f.height))
  }
}
