// The integers cut into consecutive blocks, as days are cut into months, and the order of the
// points reached by going on from a point by the length of its block.
module Blocks {

  // x lies in the block of d.
  predicate InBlock(start: int -> int, length: int -> int, d: int, x: int) {
    start(d) <= x < start(d) + length(d)
  }

  // Every point lies in its block, and the points of a block have the same block.
  ghost predicate AreBlocks(start: int -> int, length: int -> int) {
    && (forall d :: InBlock(start, length, d, d))
    && (forall d, x :: InBlock(start, length, d, x) ==> start(x) == start(d) && length(x) == length(d))
  }

  lemma StartOfStart(start: int -> int, length: int -> int, d: int)
    requires AreBlocks(start, length)
    ensures start(start(d)) == start(d) && length(start(d)) == length(d)
  {
    assert InBlock(start, length, d, d);
    assert InBlock(start, length, d, start(d));
  }

  // The point after a block starts one.
  lemma NextStarts(start: int -> int, length: int -> int, d: int, next: int)
    requires AreBlocks(start, length) && next == start(d) + length(d)
    ensures start(next) == next
  {
    assert InBlock(start, length, d, d) && InBlock(start, length, next, next);
    assert InBlock(start, length, d, next - 1);
    if start(next) < next {
      assert InBlock(start, length, next, next - 1);
    }
  }

  // Blocks do not overlap.
  lemma LaterBlock(start: int -> int, length: int -> int, d: int, later: int)
    requires AreBlocks(start, length) && d < later
    ensures start(later) == start(d) || start(later) >= start(d) + length(d)
  {
    assert InBlock(start, length, d, d) && InBlock(start, length, later, later);
    if start(later) < start(d) + length(d) && start(later) != start(d) {
      if start(d) < start(later) {
        assert InBlock(start, length, d, start(later));
        StartOfStart(start, length, later);
      } else {
        assert InBlock(start, length, later, d);
      }
    }
  }

  // Going on by a block's length keeps a point's order with all later points when the next block
  // is at least as long as the way the point is into its own.
  lemma EndsInOrder(start: int -> int, length: int -> int, d: int, later: int, next: int)
    requires AreBlocks(start, length) && d < later && next == start(d) + length(d) && d - start(d) <= length(next)
    ensures d + length(d) <= later + length(later)
    ensures d - start(d) < length(next) ==> d + length(d) < later + length(later)
  {
    assert InBlock(start, length, later, later);
    StartOfStart(start, length, d);
    StartOfStart(start, length, later);
    LaterBlock(start, length, d, later);
    NextStarts(start, length, d, next);
    if start(later) != start(d) && later > next {
      LaterBlock(start, length, next, later);
    }
  }
}
