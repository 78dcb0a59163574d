/** One frame of the game as a function on a snapshot of the world, and the
    properties every frame keeps. */
module Simulation {
  import opened Entities
  import opened BlockScan

  /** Everything a frame reads or writes: the paddle's x and direction, the
      ball, the live blocks in order, and the score. */
  datatype Frame = Frame(paddleX: int, dx: int, ball: BallState, blocks: seq<Block>, score: int)

  /** What the frame driver learns from a step: go on, or stop and show the score. */
  datatype Status = Continue | GameOver(finalScore: int)

  /** s negated n times. */
  function Reflected(s: int, n: nat): int
    decreases n
  {
    if n == 0 then s else -Reflected(s, n - 1)
  }

  lemma {:induction false} ReflectedParity(s: int, n: nat)
    ensures Reflected(s, n) == if n % 2 == 0 then s else -s
    decreases n
  {
    if n > 0 {
      ReflectedParity(s, n - 1);
    }
  }

  /** Phase 1: the paddle moves by dx and stays inside the walls. */
  function MovePaddle(canvas: Canvas, f: Frame): Frame {
    f.(paddleX := MovePaddleX(f.paddleX, f.dx, canvas.width))
  }

  /** Phase 2: the ball moves and reflects off the side walls and the ceiling. */
  function AdvanceBall(canvas: Canvas, f: Frame): Frame {
    f.(ball := MoveBall(f.ball, canvas))
  }

  /** Phase 3: a paddle hit sends the ball back vertically and scores 1. */
  function BouncePaddle(canvas: Canvas, f: Frame): Frame {
    if HitsPaddle(f.ball, f.paddleX, PaddleTop(canvas)) then
      f.(ball := f.ball.(speedY := -f.ball.speedY), score := f.score + 1)
    else f
  }

  /** Phase 4: one pass over the blocks; each removed block negates the
      vertical speed once and scores 10. */
  function SweepBlocks(f: Frame): Frame {
    var outcome := ScanLoop(f.blocks, 0, f.ball);
    f.(ball := f.ball.(speedY := Reflected(f.ball.speedY, |outcome.removed|)),
       blocks := outcome.kept,
       score := f.score + 10 * |outcome.removed|)
  }

  /** The whole simulation part of one frame, phases in the source's order. */
  function Next(canvas: Canvas, f: Frame): Frame {
    SweepBlocks(BouncePaddle(canvas, AdvanceBall(canvas, MovePaddle(canvas, f))))
  }

  /** Phase 5: the game is over once the ball's bottom is below the floor. */
  function Verdict(canvas: Canvas, f: Frame): (r: Status)
    ensures r.GameOver? <==> f.ball.y + BallRadius > canvas.height
    ensures r.GameOver? ==> r.finalScore == f.score
  {
    if f.ball.y + BallRadius > canvas.height then GameOver(f.score) else Continue
  }

  /** A ball whose bottom touches the floor exactly is still in play. */
  lemma FloorContactIsNotGameOver(canvas: Canvas, f: Frame)
    requires f.ball.y + BallRadius == canvas.height
    ensures Verdict(canvas, f) == Continue
  {
  }

  predicate IsUnitSpeed(s: int) {
    s == 2 || s == -2
  }

  /** What holds of every frame of a game on a supported canvas. */
  predicate WellFormed(canvas: Canvas, f: Frame) {
    0 <= f.paddleX <= canvas.width - PaddleWidth &&
    (f.dx == -PaddleSpeed || f.dx == 0 || f.dx == PaddleSpeed) &&
    IsUnitSpeed(f.ball.speedX) && IsUnitSpeed(f.ball.speedY) &&
    f.score >= 0
  }

  /** The paddle is inside the walls after every frame. */
  lemma NextKeepsPaddleInside(canvas: Canvas, f: Frame)
    requires canvas.Valid()
    ensures 0 <= Next(canvas, f).paddleX <= canvas.width - PaddleWidth
  {
  }

  /** The ball's speeds stay 2 or -2: they are only ever negated. */
  lemma NextKeepsUnitSpeeds(canvas: Canvas, f: Frame)
    requires IsUnitSpeed(f.ball.speedX) && IsUnitSpeed(f.ball.speedY)
    ensures IsUnitSpeed(Next(canvas, f).ball.speedX) && IsUnitSpeed(Next(canvas, f).ball.speedY)
  {
    var g := BouncePaddle(canvas, AdvanceBall(canvas, MovePaddle(canvas, f)));
    ReflectedParity(g.ball.speedY, |ScanLoop(g.blocks, 0, g.ball).removed|);
  }

  lemma NextKeepsWellFormed(canvas: Canvas, f: Frame)
    requires canvas.Valid() && WellFormed(canvas, f)
    ensures WellFormed(canvas, Next(canvas, f))
  {
    NextKeepsUnitSpeeds(canvas, f);
  }

  /** The final vertical speed is the one after the paddle test, negated once
      per removed block. */
  lemma NextSpeedYFollowsParity(canvas: Canvas, f: Frame)
    ensures var g := BouncePaddle(canvas, AdvanceBall(canvas, MovePaddle(canvas, f)));
            var removed := |g.blocks| - |Next(canvas, f).blocks|;
            Next(canvas, f).ball.speedY == if removed % 2 == 0 then g.ball.speedY else -g.ball.speedY
  {
    var g := BouncePaddle(canvas, AdvanceBall(canvas, MovePaddle(canvas, f)));
    ScanLoopFromStart(g.blocks, g.ball);
    ReflectedParity(g.ball.speedY, |ScanLoop(g.blocks, 0, g.ball).removed|);
  }

  /** The score grows by 1 for a paddle hit and by 10 per block removed, and
      by nothing else. */
  lemma NextScoreAccounting(canvas: Canvas, f: Frame)
    ensures var moved := AdvanceBall(canvas, MovePaddle(canvas, f));
            var paddleHit := if HitsPaddle(moved.ball, moved.paddleX, PaddleTop(canvas)) then 1 else 0;
            Next(canvas, f).score == f.score + paddleHit + 10 * (|f.blocks| - |Next(canvas, f).blocks|)
    ensures Next(canvas, f).score >= f.score
  {
    var g := BouncePaddle(canvas, AdvanceBall(canvas, MovePaddle(canvas, f)));
    ScanLoopFromStart(g.blocks, g.ball);
  }

  /** Blocks are only ever removed: the survivors keep their order. */
  lemma NextOnlyRemovesBlocks(canvas: Canvas, f: Frame)
    ensures IsSubsequence(Next(canvas, f).blocks, f.blocks)
    ensures |Next(canvas, f).blocks| <= |f.blocks|
  {
    var g := BouncePaddle(canvas, AdvanceBall(canvas, MovePaddle(canvas, f)));
    ScanLoopFromStart(g.blocks, g.ball);
    ScanKeepsOrder(g.blocks, g.ball);
  }

  /** A ball in open field on a 640 by 480 canvas just moves along. */
  lemma OpenFieldFrame()
    ensures var canvas := Canvas(640, 480);
            var g := Next(canvas, Frame(270, 0, BallState(100, 50, 2, -2), [], 0));
            g == Frame(270, 0, BallState(102, 48, 2, -2), [], 0) && Verdict(canvas, g) == Continue
  {
  }

  /** The frame driver: up to n frames, stopping after the first one that
      ends the game. */
  function Run(canvas: Canvas, f: Frame, n: nat): Frame
    decreases n
  {
    if n == 0 then f
    else
      var g := Next(canvas, f);
      if Verdict(canvas, g).GameOver? then g else Run(canvas, g, n - 1)
  }

  /** Over any number of frames: the invariant holds, no block comes back,
      and the score does not go down. */
  lemma {:induction false} RunKeepsInvariants(canvas: Canvas, f: Frame, n: nat)
    requires canvas.Valid() && WellFormed(canvas, f)
    ensures WellFormed(canvas, Run(canvas, f, n))
    ensures IsSubsequence(Run(canvas, f, n).blocks, f.blocks)
    ensures Run(canvas, f, n).score >= f.score
    decreases n
  {
    if n == 0 {
      SubsequenceReflexive(f.blocks);
    } else {
      var g := Next(canvas, f);
      NextKeepsWellFormed(canvas, f);
      NextOnlyRemovesBlocks(canvas, f);
      NextScoreAccounting(canvas, f);
      if !Verdict(canvas, g).GameOver? {
        RunKeepsInvariants(canvas, g, n - 1);
        SubsequenceTransitive(Run(canvas, g, n - 1).blocks, g.blocks, f.blocks);
      }
    }
  }
}
