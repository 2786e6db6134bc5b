/** Nodes linked by next pointers, as the lock-free lists keep them: nodes are numbered. */
module Links {

  type Node = nat
  datatype Link = Nil | To(node: Node)

  /** The chain of next pointers from `head` spells out `list`, without repetition. */
  ghost predicate Chain(next: seq<Link>, head: Link, list: seq<Node>)
    decreases |list|
  {
    if list == [] then head == Nil
    else
      && head == To(list[0])
      && list[0] < |next|
      && list[0] !in list[1..]
      && Chain(next, next[list[0]], list[1..])
  }

  lemma {:induction false} ChainFrame(next: seq<Link>, head: Link, list: seq<Node>, n: Node, l: Link)
    requires Chain(next, head, list) && n < |next| && n !in list
    ensures Chain(next[n := l], head, list)
    decreases |list|
  {
    if list != [] {
      ChainFrame(next, next[list[0]], list[1..], n, l);
    }
  }

  lemma ChainPush(next: seq<Link>, head: Link, list: seq<Node>, n: Node)
    requires Chain(next, head, list) && n < |next| && n !in list && next[n] == head
    ensures Chain(next, To(n), [n] + list)
  {
    assert ([n] + list)[1..] == list;
  }

  lemma {:induction false} ChainDistinct(next: seq<Link>, head: Link, list: seq<Node>, n: Node)
    requires Chain(next, head, list)
    ensures multiset(list)[n] <= 1
    decreases |list|
  {
    if list != [] {
      assert list == [list[0]] + list[1..];
      ChainDistinct(next, next[list[0]], list[1..], n);
    }
  }
}
