/**
  The game's mutable state: the ball, the two paddles and the two scores,
  updated in place by the frame step, by the serve after a point and by
  the pointer handler. Each method changes the fields in the order of
  `update` and the handlers in game.js, and is proved to land on the state that module Physics describes.
 */
module Pong {
  import opened Physics

  class Game {
    /** The canvas size, fixed for the program's lifetime. */
    const field: Field

    var ball: Ball
    var leftPaddle: Paddle
    var rightPaddle: Paddle
    var leftScore: nat
    var rightScore: nat

    /** The abstract value of the game. */
    function State(): World
      reads this
    {
      World(ball, leftPaddle, rightPaddle, leftScore, rightScore)
    }

    predicate Valid()
      reads this
    {
      Inv(field, State())
    }

    /** Program start, on a canvas of the given size; r1 and r2 are the two random draws of the first serve. */
    constructor (width: real, height: real, r1: Draw, r2: Draw)
      requires Fits(Field(width, height))
      ensures Valid()
      ensures field == Field(width, height)
      ensures State() == InitialWorld(field, r1, r2)
    {
      field := Field(width, height);
      leftScore := 0;
      rightScore := 0;
      leftPaddle := Paddle(PADDLE_MARGIN, height / 2.0 - PADDLE_HEIGHT / 2.0, PADDLE_WIDTH, PADDLE_HEIGHT, 0.0);
      rightPaddle := Paddle(width - PADDLE_MARGIN - PADDLE_WIDTH, height / 2.0 - PADDLE_HEIGHT / 2.0,
                            PADDLE_WIDTH, PADDLE_HEIGHT, 0.0);
      ball := Ball(width / 2.0, height / 2.0, BALL_RADIUS,
                   BALL_SPEED * (if r1 > 0.5 then 1.0 else -1.0), BALL_SPEED * (r2 * 2.0 - 1.0));
    }

    /** Serve from the centre in the given direction; r is the random draw for the vertical speed. */
    method ResetBall(direction: int, r: Draw)
      modifies this`ball
      ensures ball == Physics.ResetBall(old(ball), field, direction, r)
    {
      ball := ball.(x := field.width / 2.0);
      ball := ball.(y := field.height / 2.0);
      ball := ball.(dx := BALL_SPEED * direction as real);
      ball := ball.(dy := BALL_SPEED * (r * 2.0 - 1.0));
    }

    /** Move the ball by its velocity. */
    method MoveBall()
      modifies this`ball
      ensures ball == Moved(old(ball))
    {
      ball := ball.(x := ball.x + ball.dx);
      ball := ball.(y := ball.y + ball.dy);
    }

    /** Top and bottom walls. */
    method BounceOffWalls()
      modifies this`ball
      ensures ball == BounceWalls(old(ball), field.height)
    {
      if ball.y - ball.radius < 0.0 {
        ball := ball.(y := ball.radius);
        ball := ball.(dy := ball.dy * -1.0);
      }
      if ball.y + ball.radius > field.height {
        ball := ball.(y := field.height - ball.radius);
        ball := ball.(dy := ball.dy * -1.0);
      }
    }

    /** The left paddle check, then the right paddle check. */
    method HitPaddles()
      modifies this`ball
      ensures ball == CollideRight(CollideLeft(old(ball), leftPaddle), rightPaddle)
    {
      if ball.x - ball.radius < leftPaddle.x + leftPaddle.width
         && ball.y > leftPaddle.y && ball.y < leftPaddle.y + leftPaddle.height
      {
        ball := ball.(x := leftPaddle.x + leftPaddle.width + ball.radius);
        ball := ball.(dx := ball.dx * -1.0);
        // "english" from the paddle's movement
        ball := ball.(dy := ball.dy + leftPaddle.dy * SPIN);
      }
      if ball.x + ball.radius > rightPaddle.x
         && ball.y > rightPaddle.y && ball.y < rightPaddle.y + rightPaddle.height
      {
        ball := ball.(x := rightPaddle.x - ball.radius);
        ball := ball.(dx := ball.dx * -1.0);
        ball := ball.(dy := ball.dy + rightPaddle.dy * SPIN);
      }
    }

    /** The score check; r is the draw of the serve that follows a point. */
    method CheckScore(r: Draw)
      modifies this`ball, this`leftScore, this`rightScore
      ensures State() == Score(old(State()), field, r)
    {
      if ball.x - ball.radius < 0.0 {
        rightScore := rightScore + 1;
        ResetBall(1, r);
      }
      if ball.x + ball.radius > field.width {
        leftScore := leftScore + 1;
        ResetBall(-1, r);
      }
    }

    /** The opponent follows the ball, then is clamped to the canvas. */
    method MoveOpponent()
      modifies this`rightPaddle
      ensures rightPaddle == AiStep(old(rightPaddle), ball.y, field.height)
    {
      var target := ball.y - rightPaddle.height / 2.0;
      var diff := target - rightPaddle.y;
      rightPaddle := rightPaddle.(dy := Sign(diff) * Min(PADDLE_SPEED, Abs(diff)));
      rightPaddle := rightPaddle.(y := rightPaddle.y + rightPaddle.dy);
      if rightPaddle.y < 0.0 {
        rightPaddle := rightPaddle.(y := 0.0);
      }
      if rightPaddle.y + rightPaddle.height > field.height {
        rightPaddle := rightPaddle.(y := field.height - rightPaddle.height);
      }
    }

    /**
      One frame of the game loop without the drawing. r is the random draw
      used if a point is scored and the ball is served again.
     */
    method Update(r: Draw)
      requires Valid()
      modifies this
      ensures Valid()
      ensures State() == Frame(old(State()), field, r)
      ensures leftPaddle == old(leftPaddle)
      ensures old(leftScore) <= leftScore && old(rightScore) <= rightScore
      ensures leftScore + rightScore <= old(leftScore) + old(rightScore) + 1
    {
      MoveBall();
      BounceOffWalls();
      HitPaddles();
      CheckScore(r);
      MoveOpponent();
    }

    /**
      The mouse and touch handlers: centre the left paddle on the pointer's
      height, clamp it to the canvas and record the displacement as its dy.
     */
    method PointerMove(pointerY: real)
      requires Valid()
      modifies this
      ensures Valid()
      ensures leftPaddle == PaddleAtPointer(old(leftPaddle), pointerY, field.height)
      ensures ball == old(ball) && rightPaddle == old(rightPaddle)
      ensures leftScore == old(leftScore) && rightScore == old(rightScore)
    {
      var newY := pointerY - leftPaddle.height / 2.0;
      if newY < 0.0 {
        newY := 0.0;
      }
      if newY + leftPaddle.height > field.height {
        newY := field.height - leftPaddle.height;
      }
      leftPaddle := leftPaddle.(dy := newY - leftPaddle.y);
      leftPaddle := leftPaddle.(y := newY);
    }
  }
}
