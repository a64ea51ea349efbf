/**
  Many frames in a row: the game loop's rescheduling runs one frame per
  display refresh, each with its own random draw. What one frame promises
  carries over to any number of them.
 */
module Rally {
  import opened Physics

  /** The world after one frame per draw, in order. */
  function Run(w: World, f: Field, draws: seq<Draw>): (w': World)
    decreases |draws|
    ensures w'.left == w.left
    ensures w'.leftScore >= w.leftScore && w'.rightScore >= w.rightScore
    ensures Inv(f, w) ==> Inv(f, w')
    ensures Inv(f, w) ==> w'.leftScore + w'.rightScore <= w.leftScore + w.rightScore + |draws|
  {
    if draws == [] then w else Run(Frame(w, f, draws[0]), f, draws[1..])
  }

  /** What the page delivers between start and now: a frame, or a pointer move to a height on the canvas. */
  datatype Event = Tick(r: Draw) | Pointer(y: real)

  /** The number of frames among the events. */
  function Ticks(events: seq<Event>): nat
  {
    if events == [] then 0 else (if events[0].Tick? then 1 else 0) + Ticks(events[1..])
  }

  /** One event: a frame, or the pointer handler moving the left paddle. */
  function Step(w: World, f: Field, e: Event): World
  {
    match e
    case Tick(r) => Frame(w, f, r)
    case Pointer(y) => w.(left := PaddleAtPointer(w.left, y, f.height))
  }

  /**
    Frames interleaved with pointer moves, in order. The invariant is kept,
    the scores never drop, and no more points are scored than there are
    frames; without frames the ball, the opponent and the scores stay put.
   */
  function Play(w: World, f: Field, events: seq<Event>): (w': World)
    decreases |events|
    ensures w'.leftScore >= w.leftScore && w'.rightScore >= w.rightScore
    ensures Inv(f, w) ==> Inv(f, w')
    ensures Inv(f, w) ==> w'.leftScore + w'.rightScore <= w.leftScore + w.rightScore + Ticks(events)
    ensures Ticks(events) == 0 ==>
      w'.ball == w.ball && w'.right == w.right && w'.leftScore == w.leftScore && w'.rightScore == w.rightScore
  {
    if events == [] then w else Play(Step(w, f, events[0]), f, events[1..])
  }

  /** Running two stretches of events one after the other is running them together. */
  lemma {:induction false} PlayAppend(w: World, f: Field, a: seq<Event>, b: seq<Event>)
    ensures Play(w, f, a + b) == Play(Play(w, f, a), f, b)
    decreases |a|
  {
    if a == [] {
      assert a + b == b;
    } else {
      assert (a + b)[1..] == a[1..] + b;
      PlayAppend(Step(w, f, a[0]), f, a[1..], b);
    }
  }

  /** One frame per draw, as events. */
  function AsTicks(draws: seq<Draw>): (events: seq<Event>)
    ensures |events| == |draws|
    ensures forall i :: 0 <= i < |draws| ==> events[i] == Tick(draws[i])
  {
    seq(|draws|, i requires 0 <= i < |draws| => Tick(draws[i]))
  }

  /** Frames alone are the pointer-free case of Play. */
  lemma {:induction false} RunIsPlay(w: World, f: Field, draws: seq<Draw>)
    ensures Run(w, f, draws) == Play(w, f, AsTicks(draws))
    ensures Ticks(AsTicks(draws)) == |draws|
    decreases |draws|
  {
    if draws != [] {
      assert AsTicks(draws)[1..] == AsTicks(draws[1..]);
      RunIsPlay(Frame(w, f, draws[0]), f, draws[1..]);
    }
  }

  /**
    From program start, after any run of frames and pointer moves, both
    paddles are on the canvas, the ball is between the walls and moves
    sideways at BALL_SPEED, and no more points have been scored than
    there were frames.
   */
  lemma {:induction false} FromStart(f: Field, r1: Draw, r2: Draw, events: seq<Event>)
    requires Fits(f)
    ensures var w := Play(InitialWorld(f, r1, r2), f, events);
      Inv(f, w) && w.leftScore + w.rightScore <= Ticks(events)
  {
  }
}
