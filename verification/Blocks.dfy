/** Element indices and the blocks they fall in. */
module Blocks {
  import opened Words

  /** The block an index falls in, and the place within the block. */
  function Blk(i: int, b: nat): int
    requires b > 0
  {
    i / b
  }

  function Off(i: int, b: nat): (o: nat)
    requires b > 0
    ensures o < b
  {
    i % b
  }

  /** The word for the first index of block k. */
  function Base(k: int, b: nat): int {
    Word(k * b)
  }

  /** Blocks that hold the first `tail` indices. */
  function Used(tail: nat, b: nat): int
    requires b > 0
  {
    Blk(tail - 1, b) + 1
  }

  lemma BlkNext(i: int, b: nat)
    requires b > 0
    ensures Off(i, b) + 1 == b ==> Blk(i + 1, b) == Blk(i, b) + 1 && Off(i + 1, b) == 0
    ensures Off(i, b) + 1 < b ==> Blk(i + 1, b) == Blk(i, b) && Off(i + 1, b) == Off(i, b) + 1
  {
    MulDistribute(Blk(i, b), -1, b);
    if Off(i, b) + 1 == b {
      DivMod(i + 1, b, Blk(i, b) + 1, 0);
    } else {
      DivMod(i + 1, b, Blk(i, b), Off(i, b) + 1);
    }
  }

  lemma BlkMono(i: int, j: int, b: nat)
    requires b > 0 && i <= j
    ensures Blk(i, b) <= Blk(j, b)
  {
    MulDistribute(Blk(i, b), Blk(j, b), b);
    MulAtLeast(Blk(i, b) - Blk(j, b), b);
  }

  lemma BlkInj(i: int, j: int, b: nat)
    requires b > 0 && Blk(i, b) == Blk(j, b)
    ensures Off(i, b) == Off(j, b) ==> i == j
    ensures Off(j, b) - Off(i, b) == j - i
  {
  }

  lemma BlkBase(i: int, b: nat)
    requires b > 0
    ensures Word(i - Off(i, b)) == Base(Blk(i, b), b)
  {
    assert i == Blk(i, b) * b + Off(i, b);
  }

  /** Indices below `tail` lie in the blocks in use, and tail itself in the next one if on a
      boundary, else in the last one. */
  lemma UsedBlocks(i: int, tail: nat, b: nat)
    requires b > 0
    ensures i < tail ==> Blk(i, b) < Used(tail, b)
    ensures i >= tail ==> Blk(i, b) >= Used(tail, b) - 1
    ensures Blk(tail, b) == if Off(tail, b) == 0 then Used(tail, b) else Used(tail, b) - 1
    ensures Used(tail, b) >= 0 && (Used(tail, b) == 0 <==> tail == 0)
  {
    if i < tail { BlkMono(i, tail - 1, b); } else { BlkMono(tail - 1, i, b); }
    BlkNext(tail - 1, b);
    if tail > 0 { BlkMono(0, tail - 1, b); DivMod(0, b, 0, 0); } else { DivMod(-1, b, -1, b - 1); }
  }

  /** The number of index slots divides the number of blocks in a full turn of the index type. */
  ghost predicate FitsTurn(b: nat, size: nat) {
    exists turns: nat :: b * (size * turns) == MOD
  }

  lemma SlotFromBases(front: nat, k: int, f: int, b: nat, size: nat)
    requires b > 0 && size > 0 && FitsTurn(b, size)
    ensures SlotFrom(front, Base(k, b), Base(f, b), b, size) == Slot(front + (k - f), size)
  {
    var turns: nat :| b * (size * turns) == MOD;
    SlotArithmetic(front, k, f, b, size, turns);
  }
}
