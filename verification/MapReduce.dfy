/** Fork-join map-reduce over a range, split by a partitioner.  The partitioners work on positions in
    the sequence of elements; the thread each piece runs on is up to the scheduler. */
module MapReduce {

  // ------------------------------------------------------- the sequential fold

  /** The left fold that the caller means. */
  ghost function Fold<A(!new), R(!new)>(items: seq<A>, init: R, f: A -> R, reduce: (R, R) -> R): R {
    if items == [] then init
    else reduce(Fold(items[..|items| - 1], init, f, reduce), f(items[|items| - 1]))
  }

  ghost predicate Associative<R(!new)>(reduce: (R, R) -> R) {
    forall x, y, z :: reduce(reduce(x, y), z) == reduce(x, reduce(y, z))
  }

  ghost predicate LeftIdentity<R(!new)>(init: R, reduce: (R, R) -> R) {
    forall x :: reduce(init, x) == x
  }

  /** Folding two parts by themselves and reducing the results is folding the whole. */
  lemma {:induction false} FoldSplit<A(!new), R(!new)>(a: seq<A>, b: seq<A>, init: R, f: A -> R, reduce: (R, R) -> R)
    requires Associative(reduce) && LeftIdentity(init, reduce) && |b| > 0
    ensures Fold(a + b, init, f, reduce) == reduce(Fold(a, init, f, reduce), Fold(b, init, f, reduce))
  {
    var before, last := b[..|b| - 1], b[|b| - 1];
    assert (a + b)[..|a + b| - 1] == a + before;
    if before == [] {
      assert a + before == a;
      assert Fold(before, init, f, reduce) == init;
    } else {
      FoldSplit(a, before, init, f, reduce);
    }
  }

  /** With an identity on the left only, an empty right part would not do: the splits never make one. */
  lemma {:induction false} FoldOfRange<A(!new), R(!new)>(items: seq<A>, lo: nat, mid: nat, hi: nat, init: R,
      f: A -> R, reduce: (R, R) -> R)
    requires Associative(reduce) && LeftIdentity(init, reduce) && lo <= mid < hi <= |items|
    ensures Fold(items[lo..hi], init, f, reduce)
         == reduce(Fold(items[lo..mid], init, f, reduce), Fold(items[mid..hi], init, f, reduce))
  {
    assert items[lo..hi] == items[lo..mid] + items[mid..hi];
    FoldSplit(items[lo..mid], items[mid..hi], init, f, reduce);
  }

  // ----------------------------------------------------------- the partitioners

  datatype Option<T> = None | Some(value: T)

  /** static_partitioner_impl, and auto_partitioner_impl with its two further fields. */
  class Partitioner {
    const auto: bool
    const grain: nat
    const hardware: nat
    var begin: nat
    var end: nat
    var numThreads: nat
    var lastThread: Option<nat>

    constructor (auto: bool, begin: nat, end: nat, grain: nat, hardware: nat)
      requires begin <= end
      ensures this.auto == auto && this.grain == grain && this.hardware == hardware
      ensures this.begin == begin && this.end == end && lastThread == None
    {
      this.auto, this.grain, this.hardware := auto, grain, hardware;
      this.begin, this.end := begin, end;
      numThreads, lastThread := 0, None;
    }

    /** The number of threads split goes by, on the given thread. */
    ghost function Threads(thread: nat): nat
      reads this
    {
      if lastThread == Some(thread) then numThreads else hardware
    }

    /** Whether split cuts the range in two. */
    ghost predicate Cuts(thread: nat)
      reads this
    {
      begin <= end && end - begin > grain && (auto ==> Threads(thread) > 1)
    }

    /** split: keep the first half, rounded up, and return the second; or return an empty range. */
    method Split(thread: nat) returns (out: Partitioner)
      requires begin <= end
      modifies this
      ensures fresh(out) && out.auto == auto && out.grain == grain && out.hardware == hardware
      ensures begin == old(begin) <= end == out.begin <= out.end == old(end)
      ensures !old(Cuts(thread)) ==> end == old(end)
      ensures old(Cuts(thread)) ==> end - begin == (old(end) - old(begin) + 1) / 2
      ensures old(Cuts(thread)) && auto ==>
                && lastThread == out.lastThread == Some(thread)
                && numThreads + out.numThreads == old(Threads(thread)) && out.numThreads == old(Threads(thread)) / 2
    {
      var length := end - begin;
      out := new Partitioner(auto, end, end, grain, hardware);
      if length <= grain {
        return;
      }
      if auto {
        if Some(thread) != lastThread {
          numThreads := hardware;
        }
        if numThreads <= 1 {
          return;
        }
      }
      end := begin + (length + 1) / 2;
      out.begin := end;
      if auto {
        out.lastThread := Some(thread);
        lastThread := Some(thread);
        out.numThreads := numThreads / 2;
        numThreads := numThreads - out.numThreads;
      }
    }
  }

  /** auto_grain_size. */
  function AutoGrainSize(dist: nat, hardware: nat): (grain: nat)
    requires hardware >= 1
    ensures 1 <= grain <= 2048
  {
    var g := dist / (8 * hardware);
    if g < 1 then 1 else if g > 2048 then 2048 else g
  }

  /** A grain above one leaves at least eight pieces of that size for each thread, and it is the largest
      up to 2048 that does. */
  lemma EightPiecesEach(dist: nat, hardware: nat)
    requires hardware >= 1
    ensures AutoGrainSize(dist, hardware) == 1 || AutoGrainSize(dist, hardware) * (8 * hardware) <= dist
    ensures forall g: nat :: g <= 2048 && g * (8 * hardware) <= dist ==> g <= AutoGrainSize(dist, hardware)
  {
    var pieces, grain := 8 * hardware, AutoGrainSize(dist, hardware);
    var share := dist / pieces;
    if grain > 1 {
      MulAtMost(grain, share, pieces);
      assert share * pieces <= dist;
    }
    forall g: nat | g <= 2048 && g * pieces <= dist ensures g <= grain {
      if g > share {
        MulAtMost(share + 1, g, pieces);
        assert dist < share * pieces + pieces;
        Distribute(share, pieces);
      }
    }
  }

  lemma Distribute(a: nat, c: nat)
    ensures (a + 1) * c == a * c + c
  {
  }

  lemma MulAtMost(a: nat, b: nat, c: nat)
    requires a <= b
    ensures a * c <= b * c
  {
  }

  // ---------------------------------------------------------------- map-reduce

  /** internal_parallel_map_reduce.  Each half may run on any thread, or, with `stays`, all on the one
      that began; `leaves` counts the pieces folded one after the other. */
  method ParallelMapReduce<A(!new), R(!new)>(p: Partitioner, thread: nat, stays: bool, items: seq<A>,
      init: R, f: A -> R, reduce: (R, R) -> R) returns (out: R, leaves: nat)
    requires p.begin <= p.end <= |items|
    requires Associative(reduce) && LeftIdentity(init, reduce)
    modifies p
    ensures out == Fold(items[old(p.begin)..old(p.end)], init, f, reduce)
    ensures leaves >= 1
    ensures p.auto && stays ==> leaves <= 1 || leaves <= old(p.Threads(thread))
    decreases p.end - p.begin
  {
    ghost var lo, hi := p.begin, p.end;
    var sub := p.Split(thread);
    if sub.begin == sub.end {
      out := init;
      var i := p.begin;
      while i < p.end
        invariant lo <= i <= p.end == hi && p.begin == lo
        invariant out == Fold(items[lo..i], init, f, reduce)
      {
        assert items[lo..i + 1][..i - lo] == items[lo..i];
        out := reduce(out, f(items[i]));
        i := i + 1;
      }
      return out, 1;
    }
    var mid := p.end;
    var there: nat := *;
    if stays {
      there := thread;
    }
    var right, some := ParallelMapReduce(sub, there, stays, items, init, f, reduce);
    var left, others := ParallelMapReduce(p, thread, stays, items, init, f, reduce);
    FoldOfRange(items, lo, mid, hi, init, f, reduce);
    return reduce(left, right), others + some;
  }
}
