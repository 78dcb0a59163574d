# Breakout simulation in Dafny

A model of the simulation core of a small browser breakout game (`Game.js`):
a paddle, a ball and a grid of blocks on a canvas, advanced once per timer
tick and steered by the arrow keys. The model keeps the source's shape: the
ball and the paddle are classes whose `Move` methods update their fields, the
game state is a `World` class whose `Step` method mutates the ball, the score
and the list of live blocks, and the block collision is an index loop that
splices hit blocks out of the list in place. Each method is proved against a
pure function on a snapshot of the state (`Simulation.Frame`), and the
properties the game promises are lemmas about those functions.

Files and modules:

- `entities.dfy`, module `Entities`: the fixed sizes (block 80×20, ball
  radius 10, paddle 100×20, paddle speed 7), the canvas, blocks, the `Ball`
  and `Paddle` classes with their constructors and `Move` methods, and the two
  collision tests.
- `input.dfy`, module `Input`: the keydown/keyup rule for the paddle's `dx`.
- `blockscan.dfy`, module `BlockScan`: the block-collision loop as written
  (`ScanLoop`), a structural reading of the same pass (`Scan`), their
  equivalence, and what one pass does to the list.
- `simulation.dfy`, module `Simulation`: one frame as a function (`Next`),
  the game-over test (`Verdict`), the frame driver (`Run`) and the
  properties every frame keeps.
- `game.dfy`, module `Game`: the `World` class (`Init`, `Step`,
  `CollidePaddle`, `CollideBlocks`, `HandleKey`) and the grid layout.

The block loop in the source advances its index after `splice(i, 1)`, so the
block that slides into slot `i` is not tested in that pass. The model keeps
this behaviour (`ScanLoopSkipsSlidBlock`, `StackedHitsLeaveOneBlock`). Read
as removing every block the ball touches, the pass would differ:
`ScanIsFilterIffNoNeighbouringHits` shows the two agree exactly when no two
neighbouring blocks in the list are hit at once, and
`NeighbouringHitsLeaveAHit` shows that otherwise a touched block survives.
Where the two readings differ the model follows the code.

## Model

| member | source | states |
|---|---|---|
| `Entities.MovePaddleX` | Game.js:72-82 | on a canvas at least as wide as the paddle the new x lies in [0, width − 100]; a move that stays inside is not altered; overshooting the left wall lands at 0 and the right wall at width − 100 |
| `Entities.Paddle.Move` | Game.js:72-82 | the paddle's x becomes `MovePaddleX` of the old x, dx and the canvas width; no other field changes |
| `Entities.Paddle.constructor` | Game.js:58-65 | a new paddle sits at (width/2 − 50, height − 30) with dx 0 and speed 7 |
| `Entities.MoveBall` | Game.js:43-54 | the ball advances by its old speeds; neither speed changes magnitude; speedX is negated exactly when the moved ball sticks out of a side wall; speedY is negated exactly when it sticks out above the ceiling, never at the floor |
| `Entities.Ball.Move` | Game.js:43-54 | the ball's state becomes `MoveBall` of its old state |
| `Entities.Ball.constructor` | Game.js:27-34 | a new ball sits at (width/2, height − 30) with speeds (2, −2) |
| `Entities.HitsPaddle` | Game.js:118-119 | definition without a contract: the paddle overlap test with a strict centre test; `PaddleEdgeIsNoHit` states its edge behaviour |
| `Entities.HitsBlock` | Game.js:127-128 | definition without a contract: the block overlap test; `ScanRemovesOnlyHits` and `ScanKeepsEveryMiss` state how the pass uses it |
| `Entities.PaddleEdgeIsNoHit` | Game.js:118-119 | a ball whose centre x equals the paddle's left or right edge does not hit it: the test is strict |
| `Input.KeyEffect` | Game.js:150-162 | ArrowLeft down gives −speed, ArrowRight down gives speed, either arrow up gives 0, any other key leaves dx as it was |
| `Input.KeyEffectStaysInRange` | Game.js:150-162 | dx in {−speed, 0, speed} stays there after any key event |
| `Input.LastArrowEventWins` | Game.js:150-162 | after an arrow event, dx depends on that event alone, not on any earlier one |
| `BlockScan.ScanLoop` | Game.js:125-133 | definition without a contract: the index loop as written, splicing out a hit block and still advancing; its properties are stated by `ScanLoopIsScan`, `ScanLoopSkipsSlidBlock` and `ScanLoopKeepsSettled` |
| `BlockScan.Scan` | Game.js:125-133 | one pass leaves kept and removed blocks whose counts add up to the blocks before it |
| `BlockScan.ScanLoopIsScan` | Game.js:125-133 | running the index loop over `done + rest` from index `|done|`, splicing hit blocks out and still advancing, leaves `done` as is and does to `rest` exactly what `Scan` does |
| `BlockScan.ScanLoopFromStart` | Game.js:125-133 | the loop started at index 0 computes `Scan` of the list |
| `BlockScan.ScanSplitsBlocks` | Game.js:125-130 | every block before the pass is either kept or removed, exactly once (as multisets) |
| `BlockScan.ScanRemovesOnlyHits` | Game.js:127-130 | every removed block is one the ball touches |
| `BlockScan.ScanKeepsOrder` | Game.js:125-130 | the surviving blocks are a subsequence of the old list: nothing is added or reordered |
| `BlockScan.ScanKeepsEveryMiss` | Game.js:127-130 | every block the ball does not touch survives, in order |
| `BlockScan.ScanRemovesAtLeastHalfOfHits` | Game.js:125-130 | the pass removes at most all and at least half of the blocks the ball touches |
| `BlockScan.ScanIsFilterWithoutNeighbouringHits` | Game.js:125-130 | when no two neighbouring blocks are both hit, the pass removes exactly the touched blocks |
| `BlockScan.NeighbouringHitsLeaveAHit` | Game.js:125-130 | when two neighbouring blocks are both hit, some block the ball touches survives the pass |
| `BlockScan.ScanIsFilterIffNoNeighbouringHits` | Game.js:125-130 | the survivors are exactly the untouched blocks if and only if no two neighbouring blocks are both hit |
| `BlockScan.ScanLoopKeepsSettled` | Game.js:125 | the loop never changes the blocks before the current index |
| `BlockScan.ScanLoopSkipsSlidBlock` | Game.js:125-130 | after splicing out a hit block at index i, the block that slid into slot i survives the pass untested, even when the ball touches it |
| `BlockScan.StackedHitsLeaveOneBlock` | Game.js:125-133 | two stacked blocks both touched by the ball: the loop removes only the first, where removing every touched block would leave none |
| `BlockScan.SubsequenceTransitive` | Game.js:125-130 | helper: being a subsequence is transitive, which lets `RunKeepsInvariants` chain the per-frame `NextOnlyRemovesBlocks` over many frames |
| `Simulation.ReflectedParity` | Game.js:129 | negating a speed once per removed block gives the speed times (−1) to the number of removals |
| `Simulation.BouncePaddle` | Game.js:118-122 | definition without a contract: a paddle hit negates speedY and adds 1; `NextScoreAccounting` and `NextKeepsUnitSpeeds` state its effect, and `World.CollidePaddle` is proved against it |
| `Simulation.SweepBlocks` | Game.js:125-133 | definition without a contract: one pass of `ScanLoop`, speedY negated once per removal, 10 points each; `NextSpeedYFollowsParity`, `NextScoreAccounting` and `NextOnlyRemovesBlocks` state its effect, and `World.CollideBlocks` is proved against it |
| `Simulation.Next` | Game.js:114-133 | definition without a contract: paddle move, ball move, paddle test, block pass, in the source's order; `NextKeepsWellFormed`, `NextScoreAccounting`, `NextSpeedYFollowsParity` and `NextOnlyRemovesBlocks` state its properties |
| `Simulation.Verdict` | Game.js:136 | the frame reports game over, with the score, exactly when ball.y + radius > canvas height |
| `Simulation.FloorContactIsNotGameOver` | Game.js:136 | a ball whose bottom is exactly at the floor is not game over |
| `Simulation.NextKeepsPaddleInside` | Game.js:72-82 | after any frame on a supported canvas, 0 ≤ paddle x ≤ width − 100 |
| `Simulation.NextKeepsUnitSpeeds` | Game.js:43-54 | speeds of ±2 stay ±2 through a whole frame: walls, paddle and blocks only negate them |
| `Simulation.NextKeepsWellFormed` | Game.js:114-133 | a frame keeps the paddle inside, dx in {−7, 0, 7}, speeds ±2 and the score non-negative |
| `Simulation.NextSpeedYFollowsParity` | Game.js:120-131 | the final speedY is the one after the paddle test, negated iff an odd number of blocks was removed |
| `Simulation.NextScoreAccounting` | Game.js:121-131 | a frame adds exactly 1 for a paddle hit plus 10 per removed block, so the score never decreases |
| `Simulation.NextOnlyRemovesBlocks` | Game.js:125-130 | a frame's blocks are a subsequence of the blocks before it |
| `Simulation.OpenFieldFrame` | Game.js:114-136 | on a 640×480 canvas a ball at (100, 50) with speeds (2, −2) and nothing near moves to (102, 48), speeds unchanged, game continues |
| `Simulation.Run` | Game.js:100-137 | definition without a contract: the timer driver, repeating `Next` and stopping after the first game-over frame; `RunKeepsInvariants` states its properties |
| `Simulation.RunKeepsInvariants` | Game.js:100-137 | over any number of timer ticks up to game over, the frame invariant holds, no removed block comes back and the score does not decrease |
| `Game.GridBlockAt` | Game.js:93-95 | the block at index i·7 + j of the grid is at (j·90 + 50, i·30 + 50) |
| `Game.LayOutBlocks` | Game.js:93-97 | the nested loops produce 35 blocks, the k-th at column k mod 7 and row k div 7 of the grid |
| `Game.World.Init` | Game.js:85-97 | a fresh world: score 0, paddle at (width/2 − 50, height − 30) with dx 0, ball at (width/2, height − 30) with speeds (2, −2), the 35-block grid, and the frame invariant holds |
| `Game.World.CollidePaddle` | Game.js:118-122 | if the moved ball hits the paddle (strict centre test), speedY is negated and the score rises by 1; otherwise nothing changes |
| `Game.World.CollideBlocks` | Game.js:125-133 | the in-place index loop leaves the world as `SweepBlocks` says: the loop's survivors, speedY negated once per removal, 10 points per removal |
| `Game.World.Step` | Game.js:114-136 | the world after a frame is `Next` of the world before; the frame invariant is kept; the result is game over iff ball.y + radius > height; the score does not decrease and blocks are only removed |
| `Game.World.HandleKey` | Game.js:150-162 | the paddle's dx becomes `KeyEffect` of the event; the frame invariant is kept |

## Left out

- Drawing: the `draw()` methods, clearing the canvas, the score text and all colours (Game.js:20-23, 36-41, 67-70, 104-111, 142-144). They only render state.
- The timer: `setInterval`, `clearInterval` and the interval handle (Game.js:99-100, 137). The frame driver is modelled as `Simulation.Run`, which stops at the first frame whose verdict is game over.
- The `alert` on game over, the start button, the canvas lookup and the listener registration (Game.js:1-2, 138, 147, 150, 158): browser I/O. Only the effect of the key handlers on `dx` is modelled.
- How key events interleave with timer ticks: each runs to completion, so the model applies `HandleKey` and `Step` as separate atomic calls.
- Canvas sizes: only even widths and heights of at least 100 are covered, so that `width / 2` is a whole number as in the source's intended layout; odd sizes would give fractional positions.
- JavaScript numbers are doubles; coordinates and the score are unbounded integers here, which agree with the source for every value a game can reach.
- The block's `width`, `height` and `color` fields and the ball's `radius` field never change, so they are module constants rather than fields.
- Restarting a game replaces the globals in the source; here it is a new `World` from `Init`.
