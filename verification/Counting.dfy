/** Adding up a weight over a sequence: how the protocol modules count the threads in a given phase. */
module Counting {

  ghost function Total<A>(xs: seq<A>, weight: A -> int): int {
    if |xs| == 0 then 0 else Total(xs[..|xs| - 1], weight) + weight(xs[|xs| - 1])
  }

  /** Replacing one element moves the total by the difference of the two weights. */
  lemma {:induction false} TotalUpdate<A>(xs: seq<A>, i: nat, x: A, weight: A -> int)
    requires i < |xs|
    ensures Total(xs[i := x], weight) == Total(xs, weight) - weight(xs[i]) + weight(x)
  {
    var last := |xs| - 1;
    if i == last {
      assert xs[i := x][..last] == xs[..last];
    } else {
      assert xs[i := x][..last] == xs[..last][i := x];
      TotalUpdate(xs[..last], i, x, weight);
    }
  }

  /** With weights between 0 and 1 the total lies between each single weight and the length. */
  lemma {:induction false} TotalBounds<A>(xs: seq<A>, weight: A -> int)
    requires forall x :: x in xs ==> 0 <= weight(x) <= 1
    ensures 0 <= Total(xs, weight) <= |xs|
    ensures forall i :: 0 <= i < |xs| ==> weight(xs[i]) <= Total(xs, weight)
  {
    if |xs| != 0 {
      TotalBounds(xs[..|xs| - 1], weight);
    }
  }

  /** A positive total has a positive summand. */
  lemma {:induction false} TotalWitness<A>(xs: seq<A>, weight: A -> int) returns (i: nat)
    requires Total(xs, weight) > 0
    ensures i < |xs| && weight(xs[i]) > 0
  {
    i := |xs| - 1;
    if weight(xs[i]) <= 0 {
      i := TotalWitness(xs[..|xs| - 1], weight);
    }
  }

  /** Non-negative weights: every summand is below the total, and two summands together are too. */
  lemma {:induction false} TotalDominates<A>(xs: seq<A>, weight: A -> int)
    requires forall x :: x in xs ==> 0 <= weight(x)
    ensures 0 <= Total(xs, weight)
    ensures forall i :: 0 <= i < |xs| ==> weight(xs[i]) <= Total(xs, weight)
    ensures forall i, j :: 0 <= i < j < |xs| ==> weight(xs[i]) + weight(xs[j]) <= Total(xs, weight)
  {
    if |xs| != 0 {
      TotalDominates(xs[..|xs| - 1], weight);
    }
  }

  /** All weights zero make the total zero. */
  lemma {:induction false} TotalZero<A>(xs: seq<A>, weight: A -> int)
    requires forall x :: x in xs ==> weight(x) == 0
    ensures Total(xs, weight) == 0
  {
    if |xs| != 0 {
      TotalZero(xs[..|xs| - 1], weight);
    }
  }

  ghost predicate AllDistinct(xs: seq<nat>) {
    forall i, j :: 0 <= i < j < |xs| ==> xs[i] != xs[j]
  }

  /** Distinct numbers below m are at most m. */
  lemma {:induction false} Pigeonhole(xs: seq<nat>, m: nat)
    requires AllDistinct(xs) && forall i :: 0 <= i < |xs| ==> xs[i] < m
    ensures |xs| <= m
    decreases |xs|
  {
    if xs != [] {
      var k, last := |xs| - 1, |xs| - 1;
      if exists i :: 0 <= i < |xs| && xs[i] == m - 1 {
        k :| 0 <= k < |xs| && xs[k] == m - 1;
      }
      Pigeonhole(xs[k := xs[last]][..last], m - 1);
    }
  }
}
