/** The game session: the world the frame loop mutates, its initialisation,
    one frame of simulation, and the arrow-key handlers. */
module Game {
  import opened Entities
  import opened Input
  import opened BlockScan
  import opened Simulation

  /** The block that initialisation puts at index k of the list: rows of 7,
      90 pixels apart horizontally and 30 vertically, from (50, 50). */
  function GridBlock(k: int): Block {
    Block((k % 7) * 90 + 50, (k / 7) * 30 + 50)
  }

  /** Row i, column j of the grid sits at index i * 7 + j. */
  lemma GridBlockAt(i: int, j: int)
    requires 0 <= j < 7
    ensures GridBlock(i * 7 + j) == Block(j * 90 + 50, i * 30 + 50)
  {
    assert (i * 7 + j) / 7 == i && (i * 7 + j) % 7 == j;
  }

  /** The nested loops of initialisation: 5 rows of 7 blocks, row by row. */
  method LayOutBlocks() returns (blocks: seq<Block>)
    ensures |blocks| == 35
    ensures forall k :: 0 <= k < |blocks| ==> blocks[k] == GridBlock(k)
  {
    blocks := [];
    for i := 0 to 5
      invariant |blocks| == i * 7
      invariant forall k :: 0 <= k < |blocks| ==> blocks[k] == GridBlock(k)
    {
      for j := 0 to 7
        invariant |blocks| == i * 7 + j
        invariant forall k :: 0 <= k < |blocks| ==> blocks[k] == GridBlock(k)
      {
        GridBlockAt(i, j);
        blocks := blocks + [Block(j * 90 + 50, i * 30 + 50)];
      }
    }
  }

  class World {
    const canvas: Canvas
    const paddle: Paddle
    const ball: Ball
    var blocks: seq<Block>
    var score: int

    function Snapshot(): Frame
      reads this, paddle, ball
    {
      Frame(paddle.x, paddle.dx, ball.State(), blocks, score)
    }

    ghost predicate Valid()
      reads this, paddle, ball
    {
      canvas.Valid() && paddle.y == PaddleTop(canvas) && paddle.speed == PaddleSpeed &&
      WellFormed(canvas, Snapshot())
    }

    /** A fresh game: score 0, paddle and ball at the bottom centre, and the
        full grid of 35 blocks. */
    constructor Init(canvas: Canvas)
      requires canvas.Valid()
      ensures Valid() && fresh(paddle) && fresh(ball) && this.canvas == canvas
      ensures score == 0
      ensures paddle.x == canvas.width / 2 - 50 && paddle.y == canvas.height - 30 && paddle.dx == 0
      ensures ball.State() == BallState(canvas.width / 2, canvas.height - 30, 2, -2)
      ensures |blocks| == 35 && forall k :: 0 <= k < 35 ==> blocks[k] == GridBlock(k)
    {
      var grid := LayOutBlocks();
      this.canvas := canvas;
      score := 0;
      paddle := new Paddle(canvas);
      ball := new Ball(canvas);
      blocks := grid;
    }

    /** The paddle collision of a frame. */
    method CollidePaddle()
      requires paddle.y == PaddleTop(canvas)
      modifies this, ball
      ensures Snapshot() == BouncePaddle(canvas, old(Snapshot()))
    {
      if HitsPaddle(ball.State(), paddle.x, paddle.y) {
        ball.speedY := -ball.speedY;
        score := score + 1;
      }
    }

    /** The block collision of a frame: an index loop that deletes each hit
        block in place and then still advances the index. */
    method CollideBlocks()
      modifies this, ball
      ensures Snapshot() == SweepBlocks(old(Snapshot()))
    {
      ghost var start := ball.State();
      ghost var target := ScanLoop(blocks, 0, start);
      ghost var removed: seq<Block> := [];
      var i := 0;
      while i < |blocks|
        invariant target.kept == ScanLoop(blocks, i, start).kept
        invariant target.removed == removed + ScanLoop(blocks, i, start).removed
        invariant ball.x == start.x && ball.y == start.y && ball.speedX == start.speedX
        invariant ball.speedY == Reflected(start.speedY, |removed|)
        invariant score == old(score) + 10 * |removed|
        decreases |blocks| - i
      {
        ghost var before := ScanLoop(blocks, i, start);
        var block := blocks[i];
        if HitsBlock(ball.State(), block) {
          ball.speedY := -ball.speedY;
          blocks := blocks[..i] + blocks[i + 1..];
          score := score + 10;
          removed := removed + [block];
          assert before == ScanOutcome(ScanLoop(blocks, i + 1, start).kept, [block] + ScanLoop(blocks, i + 1, start).removed);
        } else {
          assert before == ScanLoop(blocks, i + 1, start);
        }
        i := i + 1;
      }
      assert ScanLoop(blocks, i, start) == ScanOutcome(blocks, []);
    }

    /** The simulation part of one frame, and whether the game is over. */
    method Step() returns (status: Status)
      requires Valid()
      modifies this, paddle, ball
      ensures Valid()
      ensures Snapshot() == Next(canvas, old(Snapshot()))
      ensures status == Verdict(canvas, Snapshot())
      ensures status.GameOver? <==> ball.y + BallRadius > canvas.height
      ensures score >= old(score) && IsSubsequence(blocks, old(blocks))
    {
      paddle.Move(canvas.width);
      ball.Move(canvas);
      CollidePaddle();
      CollideBlocks();
      if ball.y + BallRadius > canvas.height {
        status := GameOver(score);
      } else {
        status := Continue;
      }
      NextKeepsWellFormed(canvas, old(Snapshot()));
      NextOnlyRemovesBlocks(canvas, old(Snapshot()));
      NextScoreAccounting(canvas, old(Snapshot()));
    }

    /** A key press or release as the two key handlers apply it. */
    method HandleKey(e: KeyEvent)
      requires Valid()
      modifies paddle`dx
      ensures Valid()
      ensures paddle.dx == KeyEffect(old(paddle.dx), paddle.speed, e)
    {
      KeyEffectStaysInRange(paddle.dx, paddle.speed, e);
      paddle.dx := KeyEffect(paddle.dx, paddle.speed, e);
    }
  }
}
