/** The objects of the breakout game: the playfield, the blocks, the ball and
    the paddle, with the way the ball and the paddle move on their own. */
module Entities {

  /** Sizes and speeds that the constructors of Game.js fix once and for all. */
  const BlockWidth: int := 80
  const BlockHeight: int := 20
  const BallRadius: int := 10
  const PaddleWidth: int := 100
  const PaddleHeight: int := 20
  const PaddleSpeed: int := 7

  /** The drawing surface; only its size in pixels matters to the simulation. */
  datatype Canvas = Canvas(width: int, height: int) {
    /** The sizes this model covers: even, so that halving them is exact,
        and at least as wide as the paddle. */
    predicate Valid() {
      width >= 100 && height >= 100 && width % 2 == 0 && height % 2 == 0
    }
  }

  /** A block never moves: its top-left corner is all that varies. */
  datatype Block = Block(x: int, y: int)

  /** Position and velocity of the ball, the part of a Ball the rules look at. */
  datatype BallState = BallState(x: int, y: int, speedX: int, speedY: int)

  function Abs(n: int): nat {
    if n < 0 then -n else n
  }

  /** The paddle's top edge: it rests 10 pixels above the floor. */
  function PaddleTop(canvas: Canvas): int {
    canvas.height - PaddleHeight - 10
  }

  /** The paddle's x after one move: shifted by dx, then pushed back inside
      the left wall and then inside the right wall. */
  function MovePaddleX(x: int, dx: int, canvasWidth: int): (r: int)
    ensures canvasWidth >= PaddleWidth ==> 0 <= r <= canvasWidth - PaddleWidth
    ensures 0 <= x + dx <= canvasWidth - PaddleWidth ==> r == x + dx
    ensures x + dx < 0 && canvasWidth >= PaddleWidth ==> r == 0
    ensures x + dx > canvasWidth - PaddleWidth ==> r == canvasWidth - PaddleWidth
  {
    var moved := x + dx;
    var inLeft := if moved < 0 then 0 else moved;
    if inLeft + PaddleWidth > canvasWidth then canvasWidth - PaddleWidth else inLeft
  }

  /** The ball after one move: it advances by its current speed, and a speed
      is negated when the ball then sticks out of a side wall or the ceiling.
      The floor never reflects. */
  function MoveBall(b: BallState, canvas: Canvas): (r: BallState)
    ensures r.x == b.x + b.speedX && r.y == b.y + b.speedY
    ensures Abs(r.speedX) == Abs(b.speedX) && Abs(r.speedY) == Abs(b.speedY)
    ensures 0 <= r.x - BallRadius && r.x + BallRadius <= canvas.width ==> r.speedX == b.speedX
    ensures r.x - BallRadius < 0 || r.x + BallRadius > canvas.width ==> r.speedX == -b.speedX
    ensures b.speedY != 0 ==> (r.y - BallRadius < 0 <==> r.speedY == -b.speedY)
  {
    var x, y := b.x + b.speedX, b.y + b.speedY;
    var speedX := if x + BallRadius > canvas.width || x - BallRadius < 0 then -b.speedX else b.speedX;
    var speedY := if y - BallRadius < 0 then -b.speedY else b.speedY;
    BallState(x, y, speedX, speedY)
  }

  /** The paddle collision test: the ball's vertical extent overlaps the
      paddle's, and the ball's centre lies strictly between its edges. */
  predicate HitsPaddle(ball: BallState, paddleX: int, paddleY: int) {
    ball.y + BallRadius > paddleY && ball.y - BallRadius < paddleY + PaddleHeight &&
    ball.x > paddleX && ball.x < paddleX + PaddleWidth
  }

  /** The block collision test, of the same shape as the paddle's. */
  predicate HitsBlock(ball: BallState, b: Block) {
    ball.y - BallRadius < b.y + BlockHeight && ball.y + BallRadius > b.y &&
    ball.x > b.x && ball.x < b.x + BlockWidth
  }

  /** The ball's centre on either edge of the paddle is not a hit. */
  lemma PaddleEdgeIsNoHit(ball: BallState, paddleX: int, paddleY: int)
    requires ball.x == paddleX || ball.x == paddleX + PaddleWidth
    ensures !HitsPaddle(ball, paddleX, paddleY)
  {
  }

  class Ball {
    var x: int
    var y: int
    var speedX: int
    var speedY: int

    function State(): BallState
      reads this
    {
      BallState(x, y, speedX, speedY)
    }

    /** A ball at the bottom centre, heading up and to the right. */
    constructor (canvas: Canvas)
      requires canvas.width % 2 == 0
      ensures State() == BallState(canvas.width / 2, canvas.height - 30, 2, -2)
    {
      x := canvas.width / 2;
      y := canvas.height - 30;
      speedX := 2;
      speedY := -2;
    }

    method Move(canvas: Canvas)
      modifies this
      ensures State() == MoveBall(old(State()), canvas)
    {
      x := x + speedX;
      y := y + speedY;
      if x + BallRadius > canvas.width || x - BallRadius < 0 {
        speedX := -speedX;
      }
      if y - BallRadius < 0 {
        speedY := -speedY;
      }
    }
  }

  class Paddle {
    var x: int
    const y: int
    const speed: int
    var dx: int

    /** A resting paddle, centred, 10 pixels above the floor. */
    constructor (canvas: Canvas)
      requires canvas.width % 2 == 0
      ensures x == canvas.width / 2 - PaddleWidth / 2 && y == PaddleTop(canvas)
      ensures speed == PaddleSpeed && dx == 0
    {
      x := canvas.width / 2 - PaddleWidth / 2;
      y := canvas.height - PaddleHeight - 10;
      speed := PaddleSpeed;
      dx := 0;
    }

    method Move(canvasWidth: int)
      modifies this`x
      ensures x == MovePaddleX(old(x), dx, canvasWidth)
    {
      x := x + dx;
      if x < 0 {
        x := 0;
      }
      if x + PaddleWidth > canvasWidth {
        x := canvasWidth - PaddleWidth;
      }
    }
  }
}
