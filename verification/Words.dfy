/** Machine words: 64-bit unsigned indices that wrap around, and what the code's comparisons,
    conversions and divisions of them mean about the unbounded indices behind them. */
module Words {

  const MOD := 0x1_0000_0000_0000_0000
  const HALF := 0x8000_0000_0000_0000

  /** The word that holds the unbounded index x. */
  function Word(x: int): (w: int)
    ensures 0 <= w < MOD
  {
    x % MOD
  }

  /** circular_less_than on two words. */
  predicate CircularLess(a: int, b: int) {
    Word(a - b) > HALF
  }

  /** to_signed: the two's complement value of a word. */
  function ToSigned(w: int): int {
    if w > HALF - 1 then (w - HALF) - HALF else w
  }

  lemma WordDifference(a: int, b: int)
    ensures Word(Word(a) - Word(b)) == Word(a - b)
  {
    var ka, kb := a / MOD, b / MOD;
    assert a == ka * MOD + Word(a) && b == kb * MOD + Word(b);
    ModShift(Word(a) - Word(b), ka - kb);
    assert a - b == (Word(a) - Word(b)) + (ka - kb) * MOD;
  }

  lemma ModShift(x: int, k: int)
    ensures Word(x + k * MOD) == Word(x)
  {
    DivMod(x + k * MOD, MOD, x / MOD + k, x % MOD);
  }

  /** Euclidean quotient and remainder are unique. */
  lemma DivMod(x: int, m: int, q: int, r: int)
    requires m > 0 && x == q * m + r && 0 <= r < m
    ensures x / m == q && x % m == r
  {
    var d := x / m - q;
    assert x == (x / m) * m + x % m;
    assert d * m == r - x % m;
    MulAtLeast(d, m);
  }

  lemma MulAtLeast(d: int, m: int)
    requires m > 0
    ensures d >= 1 ==> d * m >= m
    ensures d <= -1 ==> d * m <= -m
  {
  }

  /** For indices less than a full turn apart, circular_less_than decides the order of the
      unbounded indices exactly when they are also within half a turn of each other; at the
      distance of half a turn it still answers false. */
  lemma CircularLessExact(a: int, b: int)
    requires -MOD < a - b < MOD
    ensures (CircularLess(Word(a), Word(b)) <==> a < b) <==> -HALF < a - b <= HALF
  {
    WordDifference(a, b);
  }

  /** The conversion of a difference of words gives back the difference of the indices exactly
      when that difference fits a signed word. */
  lemma ToSignedExact(a: int, b: int)
    ensures ToSigned(Word(Word(a) - Word(b))) == a - b <==> -HALF <= a - b < HALF
  {
    WordDifference(a, b);
  }

  /** The slot of index i in a circular array: the code masks i with a power-of-two size less one. */
  function Slot(i: int, size: nat): (slot: nat)
    requires size > 0
    ensures slot < size
  {
    i % size
  }

  lemma SlotsDistinct(i: int, j: int, size: nat)
    requires i < j < i + size
    ensures Slot(i, size) != Slot(j, size)
  {
    var qi, qj := i / size, j / size;
    MulDistribute(qj, qi, size);
    MulAtLeast(qj - qi, size);
    assert j - i == (qj - qi) * size + (Slot(j, size) - Slot(i, size));
  }

  lemma SlotShift(i: int, d: int, size: nat)
    requires size > 0
    ensures Slot(Slot(i, size) + d, size) == Slot(i + d, size)
  {
    var q, r := i / size, i % size;
    var x := r + d;
    MulDistribute(x / size, -q, size);
    DivMod(i + d, size, x / size + q, x % size);
  }

  lemma SlotSmall(i: int, size: nat)
    requires 0 <= i < size
    ensures Slot(i, size) == i
  {
  }

  /** Masking a wrapped index with a power-of-two size finds the same slot as the unbounded index:
      all that matters is that the size divides the number of words. */
  lemma SlotOfWord(i: int, size: int, turns: int)
    requires size > 0 && size * turns == MOD
    ensures Word(i) % size == i % size
  {
    var k := i / MOD;
    assert i == k * MOD + Word(i);
    var q, r := Word(i) / size, Word(i) % size;
    assert i == (k * turns + q) * size + r by {
      assert Word(i) == q * size + r;
      assert k * MOD == (k * turns) * size by { MulAssoc(k, turns, size); }
      assert (k * turns + q) * size == (k * turns) * size + q * size;
    }
    DivMod(i, size, k * turns + q, r);
  }

  lemma MulAssoc(a: int, b: int, c: int)
    ensures a * (c * b) == (a * b) * c
  {
  }

  /** The slot a consumer computes: the difference of two block bases, as a word, divided as an
      unsigned number by the block size and added to the slot of the front entry. */
  function SlotFrom(front: nat, base: int, frontBase: int, blockSize: nat, size: nat): nat
    requires blockSize > 0 && size > 0
  {
    (front + Word(base - frontBase) / blockSize) % size
  }

  /** The unsigned quotient of the wrapped distance of two block bases is the distance in blocks,
      modulo the number of blocks in a full turn. */
  lemma BlockDistance(k: int, f: int, blockSize: nat, blocks: nat)
    requires blockSize > 0 && blocks > 0 && blockSize * blocks == MOD
    ensures Word(Word(k * blockSize) - Word(f * blockSize)) / blockSize == (k - f) % blocks
  {
    var d := k - f;
    var q, r := d / blocks, d % blocks;
    WordDifference(k * blockSize, f * blockSize);
    MulDistribute(k, f, blockSize);
    assert d == q * blocks + r;
    MulDistribute(q * blocks, -r, blockSize);
    MulAssoc(q, blocks, blockSize);
    MulDistribute(blocks, r, blockSize);
    MulAtLeast(blocks - r, blockSize);
    DivMod(d * blockSize, MOD, q, r * blockSize);
    DivMod(r * blockSize, blockSize, r, 0);
  }

  lemma MulDistribute(a: int, b: int, c: int)
    ensures (a - b) * c == a * c - b * c
    ensures (-b) * c == -(b * c)
  {
  }

  /** Reducing a distance modulo a multiple of the size does not change the slot it leads to. */
  lemma SlotModulo(front: int, d: int, size: nat, turns: nat)
    requires size > 0 && size * turns > 0
    ensures (front + d % (size * turns)) % size == (front + d) % size
  {
    var blocks := size * turns;
    var q, r := d / blocks, d % blocks;
    var x := front + r;
    assert d == q * blocks + r;
    MulAssoc(q, turns, size);
    MulDistribute(x / size, -(q * turns), size);
    DivMod(front + d, size, x / size + q * turns, x % size);
  }

  /** Although the quotient of a negative offset is not the negative quotient, the slot is the one
      as many blocks away from the front slot as the blocks are from each other, provided that
      the index size divides the number of blocks in a full turn. */
  lemma SlotArithmetic(front: nat, k: int, f: int, blockSize: nat, size: nat, turns: nat)
    requires blockSize > 0 && size > 0 && blockSize * (size * turns) == MOD
    ensures SlotFrom(front, Word(k * blockSize), Word(f * blockSize), blockSize, size) == (front + (k - f)) % size
  {
    assert size * turns > 0;
    BlockDistance(k, f, blockSize, size * turns);
    SlotModulo(front, k - f, size, turns);
  }
}
