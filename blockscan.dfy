/** What one pass of the block-collision loop does to the list of live blocks.

    The loop walks the list by index and deletes a hit block in place; the
    index still advances after a deletion, so the block that slides into the
    freed slot is not tested in that pass. ScanLoop is that loop as written;
    Scan reads the same pass from the front of the list, which is what the
    inductive lemmas use; ScanLoopIsScan proves the two agree. The lemmas
    then compare the pass with removing every block the ball touches. */
module BlockScan {
  import opened Entities

  datatype ScanOutcome = ScanOutcome(kept: seq<Block>, removed: seq<Block>)

  /** a is b with some elements left out, the rest in their order. */
  predicate IsSubsequence<T(==)>(a: seq<T>, b: seq<T>)
    decreases |b|
  {
    if a == [] then true
    else if b == [] then false
    else (a[0] == b[0] && IsSubsequence(a[1..], b[1..])) || IsSubsequence(a, b[1..])
  }

  lemma {:induction false} SubsequenceReflexive<T>(a: seq<T>)
    ensures IsSubsequence(a, a)
    decreases |a|
  {
    if a != [] {
      SubsequenceReflexive(a[1..]);
    }
  }

  lemma {:induction false} SubsequenceTransitive<T>(a: seq<T>, b: seq<T>, c: seq<T>)
    requires IsSubsequence(a, b) && IsSubsequence(b, c)
    ensures IsSubsequence(a, c)
    decreases |c|
  {
    if a == [] {
    } else if IsSubsequence(b, c[1..]) {
      SubsequenceTransitive(a, b, c[1..]);
    } else if IsSubsequence(a, b[1..]) {
      SubsequenceTransitive(a, b[1..], c[1..]);
    } else {
      SubsequenceTransitive(a[1..], b[1..], c[1..]);
    }
  }

  /** The loop of the source as written, from index i of the current list:
      a hit block is spliced out and the index advances all the same. */
  function ScanLoop(blocks: seq<Block>, i: nat, ball: BallState): (r: ScanOutcome)
    decreases |blocks| - i
  {
    if i >= |blocks| then ScanOutcome(blocks, [])
    else if HitsBlock(ball, blocks[i]) then
      var after := ScanLoop(blocks[..i] + blocks[i + 1..], i + 1, ball);
      ScanOutcome(after.kept, [blocks[i]] + after.removed)
    else ScanLoop(blocks, i + 1, ball)
  }

  /** The same pass read from the front of the list: a hit block is removed,
      and the block after it is kept without being tested. */
  function Scan(blocks: seq<Block>, ball: BallState): (r: ScanOutcome)
    ensures |r.kept| + |r.removed| == |blocks|
    decreases |blocks|
  {
    if blocks == [] then ScanOutcome([], [])
    else if !HitsBlock(ball, blocks[0]) then
      var rest := Scan(blocks[1..], ball);
      ScanOutcome([blocks[0]] + rest.kept, rest.removed)
    else if |blocks| == 1 then ScanOutcome([], [blocks[0]])
    else
      // blocks[1] moves into the freed slot and the index moves past it
      var rest := Scan(blocks[2..], ball);
      ScanOutcome([blocks[1]] + rest.kept, [blocks[0]] + rest.removed)
  }

  /** Every block ends up either kept or removed, exactly once. */
  lemma {:induction false} ScanSplitsBlocks(blocks: seq<Block>, ball: BallState)
    ensures multiset(Scan(blocks, ball).kept) + multiset(Scan(blocks, ball).removed) == multiset(blocks)
    decreases |blocks|
  {
    if blocks == [] {
    } else if !HitsBlock(ball, blocks[0]) {
      var r := Scan(blocks[1..], ball);
      ScanSplitsBlocks(blocks[1..], ball);
      assert blocks == [blocks[0]] + blocks[1..];
      SplitCons(blocks[0], blocks[1..], r.kept, r.removed);
    } else if |blocks| == 1 {
    } else {
      var r := Scan(blocks[2..], ball);
      ScanSplitsBlocks(blocks[2..], ball);
      assert blocks == [blocks[0]] + ([blocks[1]] + blocks[2..]);
      SplitCons(blocks[1], blocks[2..], r.kept, r.removed);
      SplitCons(blocks[0], [blocks[1]] + blocks[2..], r.removed, [blocks[1]] + r.kept);
    }
  }

  lemma SplitCons<T>(x: T, all: seq<T>, a: seq<T>, b: seq<T>)
    requires multiset(a) + multiset(b) == multiset(all)
    ensures multiset([x] + a) + multiset(b) == multiset([x] + all)
    ensures multiset(b) + multiset([x] + a) == multiset([x] + all)
  {
  }

  /** Only blocks the ball touches are removed. */
  lemma {:induction false} ScanRemovesOnlyHits(blocks: seq<Block>, ball: BallState)
    ensures forall b :: b in Scan(blocks, ball).removed ==> HitsBlock(ball, b)
    decreases |blocks|
  {
    if blocks == [] {
    } else if !HitsBlock(ball, blocks[0]) {
      ScanRemovesOnlyHits(blocks[1..], ball);
    } else if |blocks| >= 2 {
      ScanRemovesOnlyHits(blocks[2..], ball);
    }
  }

  /** Running the loop over done + rest from index |done| leaves done alone
      and does to rest what Scan does. */
  lemma {:induction false} ScanLoopIsScan(done: seq<Block>, rest: seq<Block>, ball: BallState)
    ensures ScanLoop(done + rest, |done|, ball) ==
            ScanOutcome(done + Scan(rest, ball).kept, Scan(rest, ball).removed)
    decreases |rest|
  {
    var blocks := done + rest;
    if rest == [] {
      assert blocks == done;
    } else if !HitsBlock(ball, rest[0]) {
      assert blocks == (done + [rest[0]]) + rest[1..];
      ScanLoopIsScan(done + [rest[0]], rest[1..], ball);
    } else if |rest| == 1 {
      assert blocks[..|done|] + blocks[|done| + 1..] == done;
    } else {
      assert blocks[..|done|] + blocks[|done| + 1..] == (done + [rest[1]]) + rest[2..];
      ScanLoopIsScan(done + [rest[1]], rest[2..], ball);
    }
  }

  /** From the start of the list, the loop does what Scan does. */
  lemma ScanLoopFromStart(blocks: seq<Block>, ball: BallState)
    ensures ScanLoop(blocks, 0, ball) == Scan(blocks, ball)
  {
    ScanLoopIsScan([], blocks, ball);
    assert [] + blocks == blocks;
  }

  /** The blocks the ball does not touch, in order. */
  function Misses(blocks: seq<Block>, ball: BallState): (r: seq<Block>)
    ensures forall b :: b in r ==> b in blocks && !HitsBlock(ball, b)
    decreases |blocks|
  {
    if blocks == [] then []
    else if HitsBlock(ball, blocks[0]) then Misses(blocks[1..], ball)
    else [blocks[0]] + Misses(blocks[1..], ball)
  }

  /** How many of the blocks the ball touches. */
  function HitCount(blocks: seq<Block>, ball: BallState): (n: nat)
    ensures n <= |blocks|
    decreases |blocks|
  {
    if blocks == [] then 0
    else (if HitsBlock(ball, blocks[0]) then 1 else 0) + HitCount(blocks[1..], ball)
  }

  /** No two neighbouring blocks are both touched by the ball. */
  predicate NoTwoHitsInARow(blocks: seq<Block>, ball: BallState)
    decreases |blocks|
  {
    |blocks| < 2 ||
    (!(HitsBlock(ball, blocks[0]) && HitsBlock(ball, blocks[1])) && NoTwoHitsInARow(blocks[1..], ball))
  }

  /** The surviving blocks are the old ones with some left out, in their old order. */
  lemma {:induction false} ScanKeepsOrder(blocks: seq<Block>, ball: BallState)
    ensures IsSubsequence(Scan(blocks, ball).kept, blocks)
    decreases |blocks|
  {
    if blocks == [] {
    } else if !HitsBlock(ball, blocks[0]) {
      ScanKeepsOrder(blocks[1..], ball);
    } else if |blocks| == 1 {
    } else {
      var rest := blocks[2..];
      ScanKeepsOrder(rest, ball);
      assert blocks[1..][1..] == rest;
      assert IsSubsequence([blocks[1]] + Scan(rest, ball).kept, blocks[1..]);
    }
  }

  /** A block the ball does not touch is never removed. */
  lemma {:induction false} ScanKeepsEveryMiss(blocks: seq<Block>, ball: BallState)
    ensures Misses(Scan(blocks, ball).kept, ball) == Misses(blocks, ball)
    decreases |blocks|
  {
    if blocks == [] {
    } else if !HitsBlock(ball, blocks[0]) {
      ScanKeepsEveryMiss(blocks[1..], ball);
      var kept := Scan(blocks, ball).kept;
      assert kept[1..] == Scan(blocks[1..], ball).kept;
    } else if |blocks| == 1 {
    } else {
      ScanKeepsEveryMiss(blocks[2..], ball);
      var kept := Scan(blocks, ball).kept;
      assert kept[1..] == Scan(blocks[2..], ball).kept;
      assert blocks[1..][1..] == blocks[2..];
    }
  }

  /** At most every hit block is removed, and at least half of them. */
  lemma {:induction false} ScanRemovesAtLeastHalfOfHits(blocks: seq<Block>, ball: BallState)
    ensures |Scan(blocks, ball).removed| <= HitCount(blocks, ball) <= 2 * |Scan(blocks, ball).removed|
    decreases |blocks|
  {
    if blocks == [] {
    } else if !HitsBlock(ball, blocks[0]) {
      ScanRemovesAtLeastHalfOfHits(blocks[1..], ball);
    } else if |blocks| == 1 {
    } else {
      ScanRemovesAtLeastHalfOfHits(blocks[2..], ball);
      assert blocks[1..][1..] == blocks[2..];
    }
  }

  /** When no two hit blocks are neighbours, the pass removes exactly the
      blocks the ball touches, as testing every block would. */
  lemma {:induction false} ScanIsFilterWithoutNeighbouringHits(blocks: seq<Block>, ball: BallState)
    requires NoTwoHitsInARow(blocks, ball)
    ensures Scan(blocks, ball).kept == Misses(blocks, ball)
    ensures |Scan(blocks, ball).removed| == HitCount(blocks, ball)
    decreases |blocks|
  {
    if blocks == [] {
    } else if !HitsBlock(ball, blocks[0]) {
      ScanIsFilterWithoutNeighbouringHits(blocks[1..], ball);
    } else if |blocks| == 1 {
    } else {
      assert !HitsBlock(ball, blocks[1]);
      assert blocks[1..][1..] == blocks[2..];
      assert NoTwoHitsInARow(blocks[1..], ball);
      NoTwoHitsInARowTail(blocks[1..], ball);
      ScanIsFilterWithoutNeighbouringHits(blocks[2..], ball);
    }
  }

  /** When two neighbouring blocks are both touched, some touched block
      survives the pass. */
  lemma {:induction false} NeighbouringHitsLeaveAHit(blocks: seq<Block>, ball: BallState)
    requires !NoTwoHitsInARow(blocks, ball)
    ensures exists b :: b in Scan(blocks, ball).kept && HitsBlock(ball, b)
    decreases |blocks|
  {
    if !HitsBlock(ball, blocks[0]) {
      NeighbouringHitsLeaveAHit(blocks[1..], ball);
      var b :| b in Scan(blocks[1..], ball).kept && HitsBlock(ball, b);
      assert b in Scan(blocks, ball).kept;
    } else if HitsBlock(ball, blocks[1]) {
      assert blocks[1] in Scan(blocks, ball).kept;
    } else {
      assert blocks[1..][1..] == blocks[2..];
      NeighbouringHitsLeaveAHit(blocks[2..], ball);
      var b :| b in Scan(blocks[2..], ball).kept && HitsBlock(ball, b);
      assert b in Scan(blocks, ball).kept;
    }
  }

  /** The pass removes exactly the touched blocks if and only if no two
      neighbouring blocks are both touched. */
  lemma ScanIsFilterIffNoNeighbouringHits(blocks: seq<Block>, ball: BallState)
    ensures Scan(blocks, ball).kept == Misses(blocks, ball) <==> NoTwoHitsInARow(blocks, ball)
  {
    if NoTwoHitsInARow(blocks, ball) {
      ScanIsFilterWithoutNeighbouringHits(blocks, ball);
    } else {
      NeighbouringHitsLeaveAHit(blocks, ball);
    }
  }

  lemma NoTwoHitsInARowTail(blocks: seq<Block>, ball: BallState)
    requires |blocks| >= 1 && NoTwoHitsInARow(blocks, ball)
    ensures NoTwoHitsInARow(blocks[1..], ball)
  {
  }

  /** The loop never touches the blocks before index i again. */
  lemma {:induction false} ScanLoopKeepsSettled(blocks: seq<Block>, i: nat, ball: BallState)
    requires i <= |blocks|
    ensures i <= |ScanLoop(blocks, i, ball).kept|
    ensures ScanLoop(blocks, i, ball).kept[..i] == blocks[..i]
    decreases |blocks| - i
  {
    if i == |blocks| {
    } else if HitsBlock(ball, blocks[i]) {
      var spliced := blocks[..i] + blocks[i + 1..];
      if i + 1 < |blocks| {
        ScanLoopKeepsSettled(spliced, i + 1, ball);
        assert spliced[..i + 1][..i] == blocks[..i];
      } else {
        assert spliced == blocks[..i];
      }
    } else {
      ScanLoopKeepsSettled(blocks, i + 1, ball);
      assert blocks[..i + 1][..i] == blocks[..i];
    }
  }

  /** After deleting the hit block at index i, the loop passes over the block
      that slid into slot i: it survives the pass even when the ball touches it. */
  lemma ScanLoopSkipsSlidBlock(blocks: seq<Block>, i: nat, ball: BallState)
    requires i + 1 < |blocks| && HitsBlock(ball, blocks[i])
    ensures i < |ScanLoop(blocks, i, ball).kept| && ScanLoop(blocks, i, ball).kept[i] == blocks[i + 1]
    ensures ScanLoop(blocks, i, ball).removed[0] == blocks[i]
  {
    var spliced := blocks[..i] + blocks[i + 1..];
    ScanLoopKeepsSettled(spliced, i + 1, ball);
    assert spliced[..i + 1][i] == blocks[i + 1];
  }

  /** Two stacked blocks that the ball touches both: the loop removes only
      the first, while removing every touched block would leave none. */
  lemma StackedHitsLeaveOneBlock()
    ensures var ball := BallState(60, 75, 2, -2);
            var blocks := [Block(50, 50), Block(50, 80)];
            HitsBlock(ball, blocks[0]) && HitsBlock(ball, blocks[1]) &&
            ScanLoop(blocks, 0, ball) == ScanOutcome([Block(50, 80)], [Block(50, 50)]) &&
            Misses(blocks, ball) == []
  {
    var ball := BallState(60, 75, 2, -2);
    var blocks := [Block(50, 50), Block(50, 80)];
    assert blocks[..0] + blocks[1..] == [Block(50, 80)];
    assert blocks[1..] == [Block(50, 80)];
    assert blocks[1..][1..] == [];
  }
}
