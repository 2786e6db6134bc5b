/** The concurrent priority queue's handler: it serves a whole batch of concurrent pushes and pops on
    a vector that is a binary heap up to `mark` and unsorted behind it. */
module PriorityQueue {

  datatype Op<T> = Push(elem: T) | Pop

  datatype Status<T> = Wait | Succeeded | Popped(elem: T) | Failed

  // ----------------------------------------------------------- the ordering

  ghost predicate StrictWeak<T(!new)>(less: (T, T) -> bool) {
    && (forall x :: !less(x, x))
    && (forall x, y, z :: less(x, y) && less(y, z) ==> less(x, z))
    && (forall x, y, z :: less(x, y) ==> less(x, z) || less(z, y))
  }

  function Parent(i: int): int {
    (i - 1) / 2
  }

  /** No element before `end` is above its parent, leaving out position `hole`. */
  ghost predicate HeapBut<T(!new)>(less: (T, T) -> bool, a: seq<T>, end: nat, hole: int) {
    end <= |a| && forall i :: 1 <= i < end && i != hole ==> !less(a[Parent(i)], a[i])
  }

  ghost predicate Heap<T(!new)>(less: (T, T) -> bool, a: seq<T>, end: nat) {
    HeapBut(less, a, end, 0)
  }

  /** The root of a heap is a maximal element. */
  lemma {:induction false} RootIsMax<T(!new)>(less: (T, T) -> bool, a: seq<T>, end: nat, i: nat)
    requires StrictWeak(less) && Heap(less, a, end) && i < end
    ensures !less(a[0], a[i])
  {
    if i > 0 {
      RootIsMax(less, a, end, Parent(i));
      assert !less(a[Parent(i)], a[i]);
    }
  }

  // ------------------------------------- a sequential priority queue, as reference

  /** What one operation may answer on a queue holding m. */
  ghost predicate Allowed<T(!new)>(less: (T, T) -> bool, m: multiset<T>, op: Op<T>, status: Status<T>) {
    match op
    case Push(_) => status == Succeeded
    case Pop =>
      || (status == Failed && m == multiset{})
      || (status.Popped? && status.elem in m && forall y :: y in m ==> !less(status.elem, y))
  }

  /** What it then holds. */
  ghost function Does<T>(m: multiset<T>, op: Op<T>, status: Status<T>): multiset<T> {
    match op
    case Push(x) => m + multiset{x}
    case Pop => if status.Popped? then m - multiset{status.elem} else m
  }

  /** Operation k of a batch taking effect, with its answer. */
  datatype Event<T> = Event(k: nat, op: Op<T>, status: Status<T>)

  /** The contents after the events, one after the other. */
  ghost function After<T>(m: multiset<T>, history: seq<Event<T>>): multiset<T> {
    if history == [] then m
    else
      var last := history[|history| - 1];
      Does(After(m, history[..|history| - 1]), last.op, last.status)
  }

  /** Each event in turn answers as a sequential priority queue may. */
  ghost predicate Legal<T(!new)>(less: (T, T) -> bool, m: multiset<T>, history: seq<Event<T>>) {
    history == [] ||
    var before, last := history[..|history| - 1], history[|history| - 1];
    Legal(less, m, before) && Allowed(less, After(m, before), last.op, last.status)
  }

  lemma LegalAppend<T(!new)>(less: (T, T) -> bool, m: multiset<T>, history: seq<Event<T>>, e: Event<T>)
    requires Legal(less, m, history) && Allowed(less, After(m, history), e.op, e.status)
    ensures Legal(less, m, history + [e])
    ensures After(m, history + [e]) == Does(After(m, history), e.op, e.status)
  {
    assert (history + [e])[..|history|] == history;
  }

  /** One batch after another: their histories make one legal history. */
  lemma {:induction false} BatchesCompose<T(!new)>(less: (T, T) -> bool, m: multiset<T>, first: seq<Event<T>>,
      second: seq<Event<T>>)
    requires Legal(less, m, first) && Legal(less, After(m, first), second)
    ensures Legal(less, m, first + second) && After(m, first + second) == After(After(m, first), second)
  {
    hide Allowed, Does;
    if second == [] {
      assert first + second == first;
    } else {
      var before, last := second[..|second| - 1], second[|second| - 1];
      BatchesCompose(less, m, first, before);
      LegalAppend(less, m, first + before, last);
      assert first + second == first + before + [last];
    }
  }

  /** The history is of this batch, with the answers it got. */
  ghost predicate Records<T>(history: seq<Event<T>>, ops: seq<Op<T>>, status: seq<Status<T>>) {
    && |ops| == |status|
    && forall i :: 0 <= i < |history| ==>
         var e := history[i];
         e.k < |ops| && e.op == ops[e.k] && e.status == status[e.k] != Wait
  }

  /** Each operation of the batch occurs in it exactly once. */
  ghost predicate Complete<T>(history: seq<Event<T>>, n: nat) {
    && |history| == n
    && (forall i, j :: 0 <= i < j < n ==> history[i].k != history[j].k)
    && (forall k :: 0 <= k < n ==> Occurs(history, k))
  }

  ghost predicate Occurs<T>(history: seq<Event<T>>, k: nat) {
    exists i :: 0 <= i < |history| && history[i].k == k
  }

  /** The batch is linearizable: its answers are those of a sequential priority queue that serves
      the operations in some order. */
  ghost predicate Linearizable<T(!new)>(less: (T, T) -> bool, m: multiset<T>, ops: seq<Op<T>>, status: seq<Status<T>>,
      m': multiset<T>)
  {
    exists history: seq<Event<T>> ::
      Records(history, ops, status) && Complete(history, |ops|) && Legal(less, m, history) && After(m, history) == m'
  }

  // ------------------------------------------------ the heap under sift loops

  /** The children of the hole are below its parent. */
  ghost predicate Below<T(!new)>(less: (T, T) -> bool, a: seq<T>, end: nat, cur: nat) {
    cur > 0 ==> end <= |a| && cur < |a| && forall i :: 1 <= i < end && Parent(i) == cur ==> !less(a[Parent(cur)], a[i])
  }

  lemma HeapGrown<T(!new)>(less: (T, T) -> bool, a: seq<T>, end: nat)
    requires Heap(less, a, end) && 0 < end < |a|
    ensures HeapBut(less, a, end + 1, end) && Below(less, a, end + 1, end)
  {
  }

  lemma HeapDone<T(!new)>(less: (T, T) -> bool, a: seq<T>, end: nat, cur: nat)
    requires HeapBut(less, a, end, cur) && 0 < cur < |a| && !less(a[Parent(cur)], a[cur])
    ensures Heap(less, a, end)
  {
  }

  lemma HeapOfOne<T(!new)>(less: (T, T) -> bool, a: seq<T>)
    requires |a| > 0
    ensures Heap(less, a, 1)
  {
  }

  lemma SwapHole<T>(b: seq<T>, i: nat, j: nat, x: T)
    requires i < |b| && j < |b| && i != j
    ensures multiset(b[i := b[j]][j := x]) == multiset(b[i := x])
  {
    assert b[i := b[j]][j := x] == b[i := x][i := b[j]][j := x];
  }

  /** The hole moves from cur to its parent, whose element is below the one to place. */
  lemma HoleMoved<T(!new)>(less: (T, T) -> bool, b: seq<T>, cur: nat, x: T, end: nat)
    requires StrictWeak(less) && 0 < cur < end <= |b| && less(b[Parent(cur)], x)
    requires HeapBut(less, b[cur := x], end, cur) && Below(less, b, end, cur)
    ensures var p := Parent(cur);
            HeapBut(less, b[cur := b[p]][p := x], end, p) && Below(less, b[cur := b[p]], end, p)
  {
    var p := Parent(cur);
    var c := b[cur := b[p]];
    var old', new' := b[cur := x], c[p := x];
    forall i | 1 <= i < end && i != p ensures !less(new'[Parent(i)], new'[i]) {
      if i != cur {
        assert !less(old'[Parent(i)], old'[i]);
      }
    }
    if p > 0 {
      assert !less(old'[Parent(p)], old'[p]);
      forall i | 1 <= i < end && Parent(i) == p ensures !less(c[Parent(p)], c[i]) {
        if i != cur {
          assert !less(old'[Parent(i)], old'[i]);
        }
      }
    }
  }

  /** The higher child may be pulled up over the hole: the vector stays a heap. */
  lemma HeapPulled<T(!new)>(less: (T, T) -> bool, a: seq<T>, end: nat, cur: nat, target: nat)
    requires StrictWeak(less) && Heap(less, a, end) && cur < target < end && Parent(target) == cur
    requires forall i :: 1 <= i < end && Parent(i) == cur ==> !less(a[target], a[i])
    ensures Heap(less, a[cur := a[target]], end)
  {
    var b := a[cur := a[target]];
    forall i | 1 <= i < end ensures !less(b[Parent(i)], b[i]) {
      assert !less(a[Parent(i)], a[i]);
      if i == cur {
        assert !less(a[Parent(target)], a[target]);
      }
    }
  }

  /** With its parent not below it and no child above it, x fits at cur. */
  lemma HeapFilled<T(!new)>(less: (T, T) -> bool, a: seq<T>, end: nat, cur: nat, x: T)
    requires StrictWeak(less) && Heap(less, a, end) && cur < |a| && (cur < end || end == 0)
    requires cur > 0 ==> !less(a[Parent(cur)], x)
    requires forall i :: 1 <= i < end && Parent(i) == cur ==> !less(x, a[i])
    ensures Heap(less, a[cur := x][..|a| - 1], if end > |a| - 1 then |a| - 1 else end)
  {
    var b := a[cur := x];
    forall i | 1 <= i < end ensures !less(b[Parent(i)], b[i]) {
      assert !less(a[Parent(i)], a[i]);
    }
  }

  lemma DropLast<T>(full: seq<T>, a: seq<T>, last: T)
    requires |full| == |a| > 0 && full[|full| - 1] == last && multiset(full) == multiset(a[0 := last])
    ensures multiset(full[..|full| - 1]) == multiset(a) - multiset{a[0]}
  {
    assert full == full[..|full| - 1] + [last];
    assert a == [a[0]] + a[1..];
    assert a[0 := last] == [last] + a[1..];
  }

  /** The root is gone, the last element is in the heap or, if there was no heap, first of the rest;
      the unsorted end is otherwise as it was. */
  ghost predicate Reheaped<T(!new)>(less: (T, T) -> bool, a: seq<T>, mark: nat, d: seq<T>, mark': nat) {
    && |d| == |a| - 1 && mark <= |a| && mark' == (if mark > |d| then |d| else mark)
    && Heap(less, d, mark')
    && multiset(d) == multiset(a) - multiset{a[0]}
    && (mark > 0 ==> d[mark'..] == a[mark..][..|d| - mark'])
    && (mark == 0 && |d| > 0 ==> d == a[0 := a[|d|]][..|d|])
  }

  /** The state of the loop of reheap: d is a heap, and putting the last element of the original a
      into the hole at cur accounts for all of a but its root. */
  ghost predicate Sinking<T(!new)>(less: (T, T) -> bool, a: seq<T>, d: seq<T>, mark: nat, cur: nat) {
    && 0 < |a| == |d| && mark <= |a| && cur < |a| && (if mark > 0 then cur < mark else cur == 0)
    && Heap(less, d, mark)
    && var last := a[|a| - 1];
      && multiset(d[cur := last]) == multiset(a[0 := last])
      && (cur == |a| - 1 || d[|a| - 1] == last)
      && d[mark..] == a[mark..] && (mark == 0 ==> d == a)
      && (cur > 0 ==> !less(d[Parent(cur)], last))
  }

  lemma SinkStarts<T(!new)>(less: (T, T) -> bool, a: seq<T>, mark: nat)
    requires |a| > 0 && mark <= |a| && Heap(less, a, mark)
    ensures Sinking(less, a, a, mark, 0)
  {
  }

  /** target is the higher child of cur. */
  predicate IsTarget<T(!new)>(less: (T, T) -> bool, d: seq<T>, mark: nat, cur: nat, target: nat) {
    && 2 * cur + 1 < mark <= |d|
    && target == if 2 * cur + 2 < mark && less(d[2 * cur + 1], d[2 * cur + 2]) then 2 * cur + 2 else 2 * cur + 1
  }

  lemma HigherChild<T(!new)>(less: (T, T) -> bool, a: seq<T>, end: nat, cur: nat, target: nat)
    requires StrictWeak(less) && IsTarget(less, a, end, cur, target)
    ensures forall i :: 1 <= i < end && Parent(i) == cur ==> !less(a[target], a[i])
  {
  }

  lemma SinkStep<T(!new)>(less: (T, T) -> bool, a: seq<T>, d: seq<T>, mark: nat, cur: nat, target: nat)
    requires StrictWeak(less) && Sinking(less, a, d, mark, cur) && IsTarget(less, d, mark, cur, target)
    requires !less(d[target], d[|d| - 1])
    ensures Sinking(less, a, d[cur := d[target]], mark, target)
  {
    hide HeapBut;
    HigherChild(less, d, mark, cur, target);
    HeapPulled(less, d, mark, cur, target);
    SwapHole(d, cur, target, a[|a| - 1]);
    assert d[cur := d[target]][mark..] == d[mark..];
  }

  lemma SinkStops<T(!new)>(less: (T, T) -> bool, a: seq<T>, d: seq<T>, mark: nat, cur: nat, target: nat)
    requires StrictWeak(less) && Sinking(less, a, d, mark, cur) && IsTarget(less, d, mark, cur, target)
    requires less(d[target], d[|d| - 1])
    ensures forall i :: 1 <= i < mark && Parent(i) == cur ==> !less(a[|a| - 1], d[i])
  {
    hide HeapBut;
    HigherChild(less, d, mark, cur, target);
  }

  lemma FilledRest<T>(a: seq<T>, d: seq<T>, mark: nat, cur: nat)
    requires 0 < |a| == |d| && mark <= |a| && (if mark > 0 then cur < mark else cur == 0)
    requires (cur == |a| - 1 || d[|a| - 1] == a[|a| - 1]) && d[mark..] == a[mark..] && (mark == 0 ==> d == a)
    ensures var n, full := |a| - 1, d[cur := a[|a| - 1]];
            && (if cur != n then d[cur := d[n]] else d)[..n] == full[..n]
            && (0 < mark <= n ==> full[..n][mark..] == a[mark..][..n - mark])
            && (mark > n ==> full[..n][n..] == a[mark..][..0])
            && (mark == 0 && n > 0 ==> full[..n] == a[0 := a[n]][..n])
  {
    var n, full := |a| - 1, d[cur := a[|a| - 1]];
    if 0 < mark <= n {
      assert full[mark..] == a[mark..];
      assert full[..n][mark..] == full[mark..][..n - mark];
    }
  }

  lemma SinkFacts<T(!new)>(less: (T, T) -> bool, a: seq<T>, d: seq<T>, mark: nat, cur: nat)
    requires Sinking(less, a, d, mark, cur)
    ensures 0 < |a| == |d| && mark <= |a| && cur < |a| && (if mark > 0 then cur < mark else cur == 0)
    ensures (cur == |a| - 1 || d[|a| - 1] == a[|a| - 1]) && d[mark..] == a[mark..] && (mark == 0 ==> d == a)
    ensures multiset(d[cur := a[|a| - 1]][..|a| - 1]) == multiset(a) - multiset{a[0]}
  {
    hide HeapBut;
    DropLast(d[cur := a[|a| - 1]], a, a[|a| - 1]);
  }

  lemma SunkHeap<T(!new)>(less: (T, T) -> bool, a: seq<T>, d: seq<T>, mark: nat, cur: nat)
    requires StrictWeak(less) && Sinking(less, a, d, mark, cur)
    requires forall i :: 1 <= i < mark && Parent(i) == cur ==> !less(a[|a| - 1], d[i])
    ensures var n := |a| - 1;
            cur < |d| && Heap(less, d[cur := a[n]][..n], if mark > n then n else mark)
  {
    hide HeapBut;
    HeapFilled(less, d, mark, cur, a[|a| - 1]);
  }

  lemma SinkEnds<T(!new)>(less: (T, T) -> bool, a: seq<T>, d: seq<T>, mark: nat, cur: nat)
    requires StrictWeak(less) && Sinking(less, a, d, mark, cur)
    requires forall i :: 1 <= i < mark && Parent(i) == cur ==> !less(a[|a| - 1], d[i])
    ensures var n := |a| - 1;
            && cur <= n < |d|
            && (cur != n ==> d[n] == a[n])
            && Reheaped(less, a, mark, (if cur != n then d[cur := d[n]] else d)[..n], if mark > n then n else mark)
  {
    hide HeapBut, Sinking;
    SinkFacts(less, a, d, mark, cur);
    SunkHeap(less, a, d, mark, cur);
    FilledRest(a, d, mark, cur);
  }

  // ------------------------------------------------------------- the queue

  class Queue<T(!new)> {
    const less: (T, T) -> bool
    var data: seq<T>
    var mark: nat
    var mySize: nat

    ghost predicate Valid()
      reads this
    {
      StrictWeak(less) && mark == |data| && mySize == |data| && Heap(less, data, mark)
    }

    /** While a batch is being handled the vector has an unsorted end. */
    ghost predicate Handling()
      reads this
    {
      StrictWeak(less) && mark <= |data| && mySize == |data| && Heap(less, data, mark)
    }

    constructor (less: (T, T) -> bool)
      requires StrictWeak(less)
      ensures Valid() && data == [] && this.less == less
    {
      this.less := less;
      data, mark, mySize := [], 0, 0;
    }

    /** Move the element at mark, still outside the heap, up to its place. */
    method SiftUp()
      requires Handling() && 0 < mark < |data|
      modifies this`data
      ensures |data| == |old(data)| && Heap(less, data, mark + 1)
      ensures multiset(data) == multiset(old(data)) && data[mark + 1..] == old(data)[mark + 1..]
    {
      hide HeapBut, Below, StrictWeak;
      ghost var a := data;
      var cur, end := mark, mark + 1;
      var place := data[mark];
      assert a[mark := place] == a;
      HeapGrown(less, a, mark);
      while true
        invariant 0 < cur < end <= |data| == |a|
        invariant multiset(data[cur := place]) == multiset(a)
        invariant data[end..] == a[end..]
        invariant HeapBut(less, data[cur := place], end, cur) && Below(less, data, end, cur)
        decreases cur
      {
        ghost var b, was := data, cur;
        var parent := Parent(cur);
        if !less(data[parent], place) {
          HeapDone(less, data[cur := place], end, cur);
          break;
        }
        data := data[cur := data[parent]];
        cur := parent;
        SwapHole(b, was, cur, place);
        HoleMoved(less, b, was, place, end);
        if cur == 0 {
          break;
        }
      }
      data := data[cur := place];
    }

    /** heapify: take the unsorted end into the heap, one element at a time. */
    method Heapify()
      requires Handling()
      modifies this`data, this`mark
      ensures Valid() && |data| == |old(data)| && multiset(data) == multiset(old(data))
    {
      hide HeapBut, StrictWeak;
      if mark == 0 && |data| > 0 {
        mark := 1;
        HeapOfOne(less, data);
      }
      while mark < |data|
        invariant |data| == |old(data)| && mark <= |data| && (mark == 0 ==> |data| == 0)
        invariant Heap(less, data, mark) && multiset(data) == multiset(old(data))
      {
        SiftUp();
        mark := mark + 1;
      }
    }

    /** reheap: after the root has been taken, let the last element of the vector sink from the root,
        and shorten the vector. */
    method Reheap()
      requires StrictWeak(less) && mark <= |data| && Heap(less, data, mark) && |data| > 0
      modifies this`data, this`mark
      ensures Reheaped(less, old(data), old(mark), data, mark)
    {
      hide HeapBut, StrictWeak, Sinking, Reheaped;
      ghost var a := data;
      var cur, child := 0, 1;
      SinkStarts(less, a, mark);
      while child < mark
        invariant child == 2 * cur + 1 && 0 <= cur && mark == old(mark) <= |data| == |a|
        invariant Sinking(less, a, data, mark, cur)
        decreases mark - cur
      {
        var target := child;
        if child + 1 < mark && less(data[child], data[child + 1]) {
          target := target + 1;
        }
        if less(data[target], data[|data| - 1]) {
          SinkStops(less, a, data, mark, cur, target);
          break;
        }
        SinkStep(less, a, data, mark, cur, target);
        data := data[cur := data[target]];
        cur := target;
        child := 2 * cur + 1;
      }
      SinkEnds(less, a, data, mark, cur);
      if cur != |data| - 1 {
        data := data[cur := data[|data| - 1]];
      }
      data := data[..|data| - 1];
      if mark > |data| {
        mark := |data|;
      }
    }

    /** Serve a batch.  The first pass adds the pushed elements to the unsorted end, and serves a pop
        at once when the newest of them is above the root; the second pass serves the pops put off,
        the one put off last first. */
    method HandleOperations(ops: seq<Op<T>>) returns (status: seq<Status<T>>)
      requires Valid()
      modifies this`data, this`mark, this`mySize
      ensures Valid() && |status| == |ops|
      ensures Linearizable(less, multiset(old(data)), ops, status, multiset(data))
    {
      hide HeapBut, StrictWeak, Progress, Reheaped;
      ghost var m, history: seq<Event<T>>, pend: seq<nat> := multiset(data), [], [];
      var pops: seq<nat> := [];
      status := seq(|ops|, _ => Wait);
      ProgressStarts(less, data, ops, status);
      var i := 0;
      while i < |ops|
        invariant i <= |ops| == |status| && mark <= |data| == mySize
        invariant Progress(less, m, ops, status, data, mark, history, pend, i, pops)
      {
        match ops[i] {
          case Pop =>
            Postpone(less, m, ops, status, data, mark, history, pend, i, pops);
            if mark < |data| && less(data[0], data[|data| - 1]) {
              history, pend := ServeNewest(less, m, ops, status, data, mark, history, pend, i + 1, pops + [i]);
              status := status[i := Popped(data[|data| - 1])];
              mySize := mySize - 1;
              data := data[..|data| - 1];
              assert (pops + [i])[..|pops|] == pops;
            } else {
              pops := pops + [i];
            }
          case Push(x) =>
            pend := AddNewest(less, m, ops, status, data, mark, history, pend, i, pops, x);
            data := data + [x];
            mySize := mySize + 1;
            status := status[i := Succeeded];
        }
        i := i + 1;
      }
      while |pops| > 0
        invariant i == |ops| == |status| && mark <= |data| == mySize
        invariant Progress(less, m, ops, status, data, mark, history, pend, i, pops)
      {
        var k := pops[|pops| - 1];
        ProgressFacts(less, m, ops, status, data, mark, history, pend, i, pops);
        if |data| == 0 {
          history := ServeNothing(less, m, ops, status, data, mark, history, pend, i, pops);
          status := status[k := Failed];
        } else if mark < |data| && less(data[0], data[|data| - 1]) {
          history, pend := ServeNewest(less, m, ops, status, data, mark, history, pend, i, pops);
          status := status[k := Popped(data[|data| - 1])];
          mySize := mySize - 1;
          data := data[..|data| - 1];
        } else {
          ghost var a, was, before := data, mark, status;
          status := status[k := Popped(data[0])];
          mySize := mySize - 1;
          Reheap();
          ReheapedSize(less, a, was, data, mark);
          history, pend := ServeRoot(less, m, ops, before, a, was, data, mark, history, pend, i, pops);
        }
        pops := pops[..|pops| - 1];
      }
      ProgressFacts(less, m, ops, status, data, mark, history, pend, i, pops);
      ProgressEnds(less, m, ops, status, data, mark, history, pend);
      if mark < |data| {
        Heapify();
      }
    }
  }

  // ------------------------------------------------ how a batch makes progress

  ghost function Ks<T>(history: seq<Event<T>>): seq<nat> {
    seq(|history|, j requires 0 <= j < |history| => history[j].k)
  }

  /** The push numbered k added x, and was told so. */
  predicate Pushed<T(==)>(ops: seq<Op<T>>, status: seq<Status<T>>, k: nat, x: T) {
    k < |ops| == |status| && ops[k] == Push(x) && status[k] == Succeeded
  }

  ghost predicate PendOk<T(!new)>(ops: seq<Op<T>>, status: seq<Status<T>>, data: seq<T>, mark: nat, pend: seq<nat>) {
    && mark <= |data| == mark + |pend|
    && forall j :: 0 <= j < |pend| ==> Pushed(ops, status, pend[j], data[mark + j])
  }

  ghost predicate PopsOk<T(!new)>(ops: seq<Op<T>>, status: seq<Status<T>>, pops: seq<nat>, i: nat) {
    && i <= |ops| == |status|
    && (forall j :: 0 <= j < |pops| ==> pops[j] < i && ops[pops[j]] == Pop && status[pops[j]] == Wait)
    && (forall k :: i <= k < |ops| ==> status[k] == Wait)
  }

  ghost predicate Once(all: multiset<nat>, i: nat) {
    forall k: nat :: all[k] == if k < i then 1 else 0
  }

  /** The history has led to the heap. */
  ghost predicate Led<T(!new)>(less: (T, T) -> bool, m: multiset<T>, ops: seq<Op<T>>, status: seq<Status<T>>,
      data: seq<T>, mark: nat, history: seq<Event<T>>)
  {
    && StrictWeak(less) && mark <= |data| && Heap(less, data, mark)
    && Records(history, ops, status) && Legal(less, m, history) && After(m, history) == multiset(data[..mark])
  }

  /** With the operations before i seen: the history has led to the heap; `pend` numbers the pushes
      whose elements are in the unsorted end, and have not taken effect yet; `pops` are put off;
      and every operation seen is in one of the three, once. */
  ghost predicate Progress<T(!new)>(less: (T, T) -> bool, m: multiset<T>, ops: seq<Op<T>>, status: seq<Status<T>>,
      data: seq<T>, mark: nat, history: seq<Event<T>>, pend: seq<nat>, i: nat, pops: seq<nat>)
  {
    && Led(less, m, ops, status, data, mark, history)
    && PendOk(ops, status, data, mark, pend) && PopsOk(ops, status, pops, i)
    && Once(multiset(Ks(history)) + multiset(pend) + multiset(pops), i)
  }

  lemma ProgressFacts<T(!new)>(less: (T, T) -> bool, m: multiset<T>, ops: seq<Op<T>>, status: seq<Status<T>>,
      data: seq<T>, mark: nat, history: seq<Event<T>>, pend: seq<nat>, i: nat, pops: seq<nat>)
    requires Progress(less, m, ops, status, data, mark, history, pend, i, pops)
    ensures StrictWeak(less) && mark <= |data| && Heap(less, data, mark) && |status| == |ops|
    ensures |pops| > 0 ==> pops[|pops| - 1] < |status|
  {
  }

  lemma ReheapedSize<T(!new)>(less: (T, T) -> bool, a: seq<T>, mark: nat, d: seq<T>, mark': nat)
    requires Reheaped(less, a, mark, d, mark')
    ensures |d| == |a| - 1 && mark' <= |d|
  {
  }

  lemma ProgressStarts<T(!new)>(less: (T, T) -> bool, data: seq<T>, ops: seq<Op<T>>, status: seq<Status<T>>)
    requires StrictWeak(less) && Heap(less, data, |data|) && status == seq(|ops|, _ => Wait)
    ensures Progress(less, multiset(data), ops, status, data, |data|, [], [], 0, [])
  {
    assert data[..|data|] == data;
  }

  lemma KsAppend<T>(history: seq<Event<T>>, e: Event<T>)
    ensures multiset(Ks(history + [e])) == multiset(Ks(history)) + multiset{e.k}
  {
    assert Ks(history + [e]) == Ks(history) + [e.k];
  }

  lemma Counted(s: seq<nat>, k: nat)
    ensures k in s <==> multiset(s)[k] > 0
    ensures |s| > 0 ==> multiset(s) == multiset(s[..|s| - 1]) + multiset{s[|s| - 1]}
  {
    if |s| > 0 {
      assert s == s[..|s| - 1] + [s[|s| - 1]];
    }
  }

  lemma Postpone<T(!new)>(less: (T, T) -> bool, m: multiset<T>, ops: seq<Op<T>>, status: seq<Status<T>>,
      data: seq<T>, mark: nat, history: seq<Event<T>>, pend: seq<nat>, i: nat, pops: seq<nat>)
    requires Progress(less, m, ops, status, data, mark, history, pend, i, pops) && i < |ops| && ops[i] == Pop
    ensures Progress(less, m, ops, status, data, mark, history, pend, i + 1, pops + [i])
  {
    hide Led, PendOk, Once, Ks;
    assert multiset(pops + [i]) == multiset(pops) + multiset{i};
    OnceNext(multiset(Ks(history)) + multiset(pend) + multiset(pops),
      multiset(Ks(history)) + multiset(pend) + multiset(pops + [i]), i);
  }

  lemma OnceNext(all: multiset<nat>, all': multiset<nat>, i: nat)
    requires Once(all, i) && all' == all + multiset{i}
    ensures Once(all', i + 1)
  {
  }

  /** Operation k is not in the history yet, so that its answer may change. */
  lemma RecordsFrame<T>(history: seq<Event<T>>, ops: seq<Op<T>>, status: seq<Status<T>>, k: nat, st: Status<T>)
    requires Records(history, ops, status) && k < |status| && status[k] == Wait
    ensures Records(history, ops, status[k := st])
  {
  }

  lemma RecordsAppend<T>(history: seq<Event<T>>, ops: seq<Op<T>>, status: seq<Status<T>>, e: Event<T>)
    requires Records(history, ops, status) && e.k < |ops| && e.op == ops[e.k] && e.status == status[e.k] != Wait
    ensures Records(history + [e], ops, status)
  {
  }

  /** An answer to an operation that waits for one concerns neither the pushes in the unsorted end
      nor the other pops. */
  lemma PendFrame<T(!new)>(ops: seq<Op<T>>, status: seq<Status<T>>, data: seq<T>, mark: nat, pend: seq<nat>, k: nat,
      st: Status<T>)
    requires PendOk(ops, status, data, mark, pend) && k < |status| && status[k] == Wait
    ensures PendOk(ops, status[k := st], data, mark, pend)
  {
    forall j | 0 <= j < |pend| ensures Pushed(ops, status[k := st], pend[j], data[mark + j]) {
      assert Pushed(ops, status, pend[j], data[mark + j]);
    }
  }

  lemma PopServed<T(!new)>(ops: seq<Op<T>>, status: seq<Status<T>>, pops: seq<nat>, i: nat, st: Status<T>,
      others: multiset<nat>)
    requires PopsOk(ops, status, pops, i) && |pops| > 0 && Once(others + multiset(pops), i)
    ensures var k := pops[|pops| - 1];
            && k < |ops| == |status| && ops[k] == Pop && status[k] == Wait
            && PopsOk(ops, status[k := st], pops[..|pops| - 1], i)
            && multiset(pops) == multiset(pops[..|pops| - 1]) + multiset{k}
  {
    var k := pops[|pops| - 1];
    Counted(pops, k);
    forall j | 0 <= j < |pops| - 1 ensures pops[j] != k {
      assert (others + multiset(pops))[k] <= 1;
      OnceInSeq(pops, j, |pops| - 1);
    }
  }

  lemma AddNewest<T(!new)>(less: (T, T) -> bool, m: multiset<T>, ops: seq<Op<T>>, status: seq<Status<T>>,
      data: seq<T>, mark: nat, history: seq<Event<T>>, pend: seq<nat>, i: nat, pops: seq<nat>, x: T)
        returns (pend': seq<nat>)
    requires Progress(less, m, ops, status, data, mark, history, pend, i, pops) && i < |ops| && ops[i] == Push(x)
    ensures Progress(less, m, ops, status[i := Succeeded], data + [x], mark, history, pend', i + 1, pops)
  {
    hide StrictWeak, Legal, After, Records, Ks;
    pend' := pend + [i];
    var status' := status[i := Succeeded];
    RecordsFrame(history, ops, status, i, Succeeded);
    PendFrame(ops, status, data, mark, pend, i, Succeeded);
    assert (data + [x])[..mark] == data[..mark];
    assert multiset(pend') == multiset(pend) + multiset{i};
    OnceNext(multiset(Ks(history)) + multiset(pend) + multiset(pops),
      multiset(Ks(history)) + multiset(pend') + multiset(pops), i);
    forall j | 0 <= j < |pend'| ensures Pushed(ops, status', pend'[j], (data + [x])[mark + j]) {
      if j < |pend| {
        assert Pushed(ops, status', pend[j], data[mark + j]);
      }
    }
  }

  /** Extend the history by one operation, with its answer as given. */
  lemma Extend<T(!new)>(less: (T, T) -> bool, m: multiset<T>, ops: seq<Op<T>>, status: seq<Status<T>>,
      history: seq<Event<T>>, k: nat)
    returns (history': seq<Event<T>>)
    requires Records(history, ops, status) && Legal(less, m, history) && k < |ops| == |status| && status[k] != Wait
    requires Allowed(less, After(m, history), ops[k], status[k])
    ensures Records(history', ops, status) && Legal(less, m, history')
    ensures After(m, history') == Does(After(m, history), ops[k], status[k])
    ensures multiset(Ks(history')) == multiset(Ks(history)) + multiset{k}
  {
    hide Records, Legal, After, Ks;
    var e := Event(k, ops[k], status[k]);
    history' := history + [e];
    RecordsAppend(history, ops, status, e);
    LegalAppend(less, m, history, e);
    KsAppend(history, e);
  }

  lemma MaxOfHeap<T(!new)>(less: (T, T) -> bool, data: seq<T>, mark: nat, x: T)
    requires StrictWeak(less) && Heap(less, data, mark) && mark <= |data|
    requires mark > 0 ==> x == data[0] || less(data[0], x)
    ensures forall y :: y in multiset(data[..mark]) + multiset{x} ==> !less(x, y)
  {
    forall y | y in multiset(data[..mark]) ensures !less(x, y) {
      var j :| 0 <= j < mark && data[..mark][j] == y;
      RootIsMax(less, data, mark, j);
    }
  }

  /** A push, and right after it the pop that takes its element, above all others. */
  lemma PushThenPop<T(!new)>(less: (T, T) -> bool, m: multiset<T>, ops: seq<Op<T>>, status: seq<Status<T>>,
      history: seq<Event<T>>, p: nat, k: nat, x: T) returns (history': seq<Event<T>>)
    requires Records(history, ops, status) && Legal(less, m, history) && Pushed(ops, status, p, x)
    requires k < |ops| == |status| && ops[k] == Pop && status[k] == Popped(x)
    requires forall y :: y in After(m, history) + multiset{x} ==> !less(x, y)
    ensures Records(history', ops, status) && Legal(less, m, history') && After(m, history') == After(m, history)
    ensures multiset(Ks(history')) == multiset(Ks(history)) + multiset{p, k}
  {
    hide Records, Legal, After, Ks;
    var middle := Extend(less, m, ops, status, history, p);
    history' := Extend(less, m, ops, status, middle, k);
  }

  /** The newest element of the unsorted end is above the whole heap: its push takes effect, and
      right after it the pop that takes it. */
  lemma ServeNewest<T(!new)>(less: (T, T) -> bool, m: multiset<T>, ops: seq<Op<T>>, status: seq<Status<T>>,
      data: seq<T>, mark: nat, history: seq<Event<T>>, pend: seq<nat>, i: nat, pops: seq<nat>)
    returns (history': seq<Event<T>>, pend': seq<nat>)
    requires Progress(less, m, ops, status, data, mark, history, pend, i, pops) && |pops| > 0
    requires mark < |data| && less(data[0], data[|data| - 1])
    ensures pops[|pops| - 1] < |status|
    ensures Progress(less, m, ops, status[pops[|pops| - 1] := Popped(data[|data| - 1])], data[..|data| - 1], mark,
            history', pend', i, pops[..|pops| - 1])
  {
    hide StrictWeak, Legal, After, Records, Ks;
    var n, k := |data| - 1, pops[|pops| - 1];
    var x, status', p := data[n], status[k := Popped(data[n])], pend[|pend| - 1];
    PopServed(ops, status, pops, i, Popped(x), multiset(Ks(history)) + multiset(pend));
    PendFrame(ops, status, data, mark, pend, k, Popped(x));
    RecordsFrame(history, ops, status, k, Popped(x));
    MaxOfHeap(less, data, mark, x);
    assert Pushed(ops, status', p, data[mark + (|pend| - 1)]);
    history' := PushThenPop(less, m, ops, status', history, p, k, x);
    pend' := pend[..|pend| - 1];
    Counted(pend, k);
    LedShorter(less, data, mark, n);
    assert multiset(Ks(history')) + multiset(pend') + multiset(pops[..|pops| - 1])
        == multiset(Ks(history)) + multiset(pend) + multiset(pops);
  }

  lemma LedShorter<T(!new)>(less: (T, T) -> bool, data: seq<T>, mark: nat, n: nat)
    requires mark <= n <= |data| && Heap(less, data, mark)
    ensures Heap(less, data[..n], mark) && data[..n][..mark] == data[..mark]
  {
  }

  /** On an empty queue, with every push served, the pop fails. */
  lemma ServeNothing<T(!new)>(less: (T, T) -> bool, m: multiset<T>, ops: seq<Op<T>>, status: seq<Status<T>>,
      data: seq<T>, mark: nat, history: seq<Event<T>>, pend: seq<nat>, i: nat, pops: seq<nat>)
    returns (history': seq<Event<T>>)
    requires Progress(less, m, ops, status, data, mark, history, pend, i, pops) && |pops| > 0 && data == []
    ensures pops[|pops| - 1] < |status|
    ensures Progress(less, m, ops, status[pops[|pops| - 1] := Failed], data, mark, history', pend, i,
            pops[..|pops| - 1])
  {
    hide HeapBut, StrictWeak, Legal, After, Records, Ks;
    var k := pops[|pops| - 1];
    PopServed(ops, status, pops, i, Failed, multiset(Ks(history)) + multiset(pend));
    PendFrame(ops, status, data, mark, pend, k, Failed);
    RecordsFrame(history, ops, status, k, Failed);
    history' := Extend(less, m, ops, status[k := Failed], history, k);
    assert multiset(Ks(history')) + multiset(pend) + multiset(pops[..|pops| - 1])
        == multiset(Ks(history)) + multiset(pend) + multiset(pops);
  }

  lemma ServeHeapRoot<T(!new)>(less: (T, T) -> bool, m: multiset<T>, ops: seq<Op<T>>, status: seq<Status<T>>,
      a: seq<T>, data: seq<T>, history: seq<Event<T>>, pend: seq<nat>, i: nat, pops: seq<nat>)
    returns (history': seq<Event<T>>)
    requires Progress(less, m, ops, status, a, |a|, history, pend, i, pops) && |pops| > 0 && |a| > 0
    requires Reheaped(less, a, |a|, data, |data|)
    ensures pops[|pops| - 1] < |status|
    ensures Progress(less, m, ops, status[pops[|pops| - 1] := Popped(a[0])], data, |data|, history', pend, i,
            pops[..|pops| - 1])
  {
    hide HeapBut, StrictWeak, Legal, After, Records, Ks;
    var k := pops[|pops| - 1];
    PopServed(ops, status, pops, i, Popped(a[0]), multiset(Ks(history)) + multiset(pend));
    RecordsFrame(history, ops, status, k, Popped(a[0]));
    MaxOfHeap(less, a, |a|, a[0]);
    assert a[..|a|] == a && data[..|data|] == data;
    history' := Extend(less, m, ops, status[k := Popped(a[0])], history, k);
    assert multiset(Ks(history')) + multiset(pend) + multiset(pops[..|pops| - 1])
        == multiset(Ks(history)) + multiset(pend) + multiset(pops);
  }

  lemma TakenElements<T>(a: seq<T>, was: nat, data: seq<T>)
    requires 0 < was < |a| == |data| + 1 && data[was..] == a[was..][..|data| - was]
    requires multiset(data) == multiset(a) - multiset{a[0]}
    ensures multiset(data[..was]) == multiset(a[..was]) - multiset{a[0]} + multiset{a[|a| - 1]}
  {
    var n := |data|;
    var suffix := a[was..n];
    assert a[was..][..n - was] == suffix;
    assert data == data[..was] + suffix;
    assert a == a[..was] + suffix + [a[n]];
    assert multiset(a) == multiset(a[..was]) + multiset(suffix) + multiset{a[n]};
    assert a[..was][0] == a[0];
    CancelSuffix(multiset(data[..was]), multiset(a[..was]), multiset(suffix), a[0], a[n]);
  }

  lemma CancelSuffix<T>(d: multiset<T>, h: multiset<T>, rest: multiset<T>, x: T, y: T)
    requires x in h && d + rest == h + rest + multiset{y} - multiset{x}
    ensures d == h - multiset{x} + multiset{y}
  {
    forall z ensures d[z] == (h - multiset{x} + multiset{y})[z] {
      assert (d + rest)[z] == (h + rest + multiset{y} - multiset{x})[z];
    }
  }

  lemma ServeRootAndTake<T(!new)>(less: (T, T) -> bool, m: multiset<T>, ops: seq<Op<T>>, status: seq<Status<T>>,
      a: seq<T>, was: nat, data: seq<T>, history: seq<Event<T>>, pend: seq<nat>, i: nat, pops: seq<nat>)
    returns (history': seq<Event<T>>, pend': seq<nat>)
    requires Progress(less, m, ops, status, a, was, history, pend, i, pops) && |pops| > 0 && 0 < was < |a|
    requires Reheaped(less, a, was, data, was)
    ensures pops[|pops| - 1] < |status|
    ensures Progress(less, m, ops, status[pops[|pops| - 1] := Popped(a[0])], data, was, history', pend', i,
            pops[..|pops| - 1])
  {
    hide HeapBut, StrictWeak, Legal, After, Records, Ks;
    var k, p := pops[|pops| - 1], pend[|pend| - 1];
    var status' := status[k := Popped(a[0])];
    PopServed(ops, status, pops, i, Popped(a[0]), multiset(Ks(history)) + multiset(pend));
    PendFrame(ops, status, a, was, pend, k, Popped(a[0]));
    RecordsFrame(history, ops, status, k, Popped(a[0]));
    MaxOfHeap(less, a, was, a[0]);
    TakenElements(a, was, data);
    assert a[..was][0] == a[0];
    assert Pushed(ops, status', p, a[was + (|pend| - 1)]);
    var middle := Extend(less, m, ops, status', history, k);
    history' := Extend(less, m, ops, status', middle, p);
    pend' := pend[..|pend| - 1];
    Counted(pend, k);
    PendTaken(ops, status', a, was, pend, data);
    assert multiset(Ks(history')) + multiset(pend') + multiset(pops[..|pops| - 1])
        == multiset(Ks(history)) + multiset(pend) + multiset(pops);
  }

  lemma PendTaken<T(!new)>(ops: seq<Op<T>>, status: seq<Status<T>>, a: seq<T>, was: nat, pend: seq<nat>, data: seq<T>)
    requires PendOk(ops, status, a, was, pend) && was < |a| == |data| + 1 && data[was..] == a[was..][..|data| - was]
    ensures PendOk(ops, status, data, was, pend[..|pend| - 1])
  {
    forall j | 0 <= j < |pend| - 1 ensures Pushed(ops, status, pend[j], data[was + j]) {
      assert Pushed(ops, status, pend[j], a[was + j]) && data[was..][j] == a[was..][j];
    }
  }

  lemma MoveLastFirst<T>(s: seq<T>)
    requires |s| > 0
    ensures var n := |s| - 1;
            n > 0 ==> multiset(s[0 := s[n]][..n]) == multiset(s) - multiset{s[0]}
    ensures |s| == 1 ==> multiset(s) - multiset{s[0]} == multiset{}
  {
    var n := |s| - 1;
    assert s == [s[0]] + s[1..];
    if n > 0 {
      assert s[0 := s[n]][..n] == [s[n]] + s[1..n];
      assert s[1..] == s[1..n] + [s[n]];
    }
  }

  lemma FirstMoved<T(!new)>(less: (T, T) -> bool, a: seq<T>, data: seq<T>)
    requires |a| > 0 && Reheaped(less, a, 0, data, 0)
    ensures |a| == |data| + 1 && Heap(less, data, 0) && (|data| > 0 ==> data == a[0 := a[|data|]][..|data|])
  {
  }

  /** With no heap, the push of the first element takes effect and the pop takes that element. */
  lemma LedFirst<T(!new)>(less: (T, T) -> bool, m: multiset<T>, ops: seq<Op<T>>, status: seq<Status<T>>,
      a: seq<T>, data: seq<T>, history: seq<Event<T>>, p: nat, k: nat) returns (history': seq<Event<T>>)
    requires Led(less, m, ops, status, a, 0, history) && |a| > 0 && Heap(less, data, 0)
    requires k < |ops| == |status| && ops[k] == Pop && status[k] == Wait
    requires Pushed(ops, status[k := Popped(a[0])], p, a[0])
    ensures Led(less, m, ops, status[k := Popped(a[0])], data, 0, history')
    ensures multiset(Ks(history')) == multiset(Ks(history)) + multiset{p, k}
  {
    hide HeapBut, StrictWeak, Legal, After, Records, Ks;
    RecordsFrame(history, ops, status, k, Popped(a[0]));
    MaxOfHeap(less, a, 0, a[0]);
    assert a[..0] == data[..0];
    history' := PushThenPop(less, m, ops, status[k := Popped(a[0])], history, p, k, a[0]);
  }

  lemma PendFirst<T(!new)>(ops: seq<Op<T>>, status: seq<Status<T>>, a: seq<T>, pend: seq<nat>, data: seq<T>)
    returns (pend': seq<nat>)
    requires PendOk(ops, status, a, 0, pend) && |a| == |data| + 1
    requires |data| > 0 ==> data == a[0 := a[|data|]][..|data|]
    ensures |pend| > 0 && Pushed(ops, status, pend[0], a[0])
    ensures PendOk(ops, status, data, 0, pend')
    ensures multiset(pend) == multiset(pend') + multiset{pend[0]}
  {
    hide Pushed;
    var n := |data|;
    pend' := if n > 0 then pend[0 := pend[n]][..n] else [];
    MoveLastFirst(pend);
    PendMoved(ops, status, a, pend, data);
    assert Pushed(ops, status, pend[0], a[0 + 0]);
  }

  lemma ServeFirst<T(!new)>(less: (T, T) -> bool, m: multiset<T>, ops: seq<Op<T>>, status: seq<Status<T>>,
      a: seq<T>, data: seq<T>, history: seq<Event<T>>, pend: seq<nat>, i: nat, pops: seq<nat>)
    returns (history': seq<Event<T>>, pend': seq<nat>)
    requires Progress(less, m, ops, status, a, 0, history, pend, i, pops) && |pops| > 0 && |a| > 0
    requires Reheaped(less, a, 0, data, 0)
    ensures pops[|pops| - 1] < |status|
    ensures Progress(less, m, ops, status[pops[|pops| - 1] := Popped(a[0])], data, 0, history', pend', i,
            pops[..|pops| - 1])
  {
    hide HeapBut, StrictWeak, Led, PendOk, PopsOk, Once, Ks, Reheaped, Pushed;
    FirstMoved(less, a, data);
    var k := pops[|pops| - 1];
    PopServed(ops, status, pops, i, Popped(a[0]), multiset(Ks(history)) + multiset(pend));
    PendFrame(ops, status, a, 0, pend, k, Popped(a[0]));
    pend' := PendFirst(ops, status[k := Popped(a[0])], a, pend, data);
    history' := LedFirst(less, m, ops, status, a, data, history, pend[0], k);
    assert multiset(Ks(history')) + multiset(pend') + multiset(pops[..|pops| - 1])
        == multiset(Ks(history)) + multiset(pend) + multiset(pops);
  }

  lemma PendMoved<T(!new)>(ops: seq<Op<T>>, status: seq<Status<T>>, a: seq<T>, pend: seq<nat>, data: seq<T>)
    requires PendOk(ops, status, a, 0, pend) && |a| == |data| + 1
    requires |data| > 0 ==> data == a[0 := a[|data|]][..|data|]
    ensures PendOk(ops, status, data, 0, if |data| > 0 then pend[0 := pend[|data|]][..|data|] else [])
  {
    var n := |data|;
    if n > 0 {
      var pend' := pend[0 := pend[n]][..n];
      forall j | 0 <= j < n ensures Pushed(ops, status, pend'[j], data[j]) {
        assert Pushed(ops, status, pend[j], a[0 + j]) && Pushed(ops, status, pend[n], a[0 + n]);
      }
    }
  }

  /** The root is popped.  If the last element was an unsorted one its push takes effect next; with
      no heap, the push of the first element takes effect and that element is popped. */
  lemma ServeRoot<T(!new)>(less: (T, T) -> bool, m: multiset<T>, ops: seq<Op<T>>, status: seq<Status<T>>,
      a: seq<T>, was: nat, data: seq<T>, mark: nat, history: seq<Event<T>>, pend: seq<nat>, i: nat, pops: seq<nat>)
    returns (history': seq<Event<T>>, pend': seq<nat>)
    requires Progress(less, m, ops, status, a, was, history, pend, i, pops) && |pops| > 0 && |a| > 0
    requires Reheaped(less, a, was, data, mark)
    ensures pops[|pops| - 1] < |status|
    ensures Progress(less, m, ops, status[pops[|pops| - 1] := Popped(a[0])], data, mark, history', pend', i,
            pops[..|pops| - 1])
  {
    if was == 0 {
      history', pend' := ServeFirst(less, m, ops, status, a, data, history, pend, i, pops);
    } else if was == |a| {
      history' := ServeHeapRoot(less, m, ops, status, a, data, history, pend, i, pops);
      pend' := pend;
    } else {
      history', pend' := ServeRootAndTake(less, m, ops, status, a, was, data, history, pend, i, pops);
    }
  }

  /** The pushes left take effect in the order of the unsorted end. */
  lemma {:induction false} Drain<T(!new)>(less: (T, T) -> bool, m: multiset<T>, ops: seq<Op<T>>, status: seq<Status<T>>,
      data: seq<T>, mark: nat, history: seq<Event<T>>, pend: seq<nat>)
    returns (history': seq<Event<T>>)
    requires Records(history, ops, status) && Legal(less, m, history)
    requires mark <= |data| == mark + |pend| && After(m, history) == multiset(data[..mark])
    requires forall j :: 0 <= j < |pend| ==> Pushed(ops, status, pend[j], data[mark + j])
    ensures Records(history', ops, status) && Legal(less, m, history') && After(m, history') == multiset(data)
    ensures multiset(Ks(history')) == multiset(Ks(history)) + multiset(pend)
    decreases |pend|
  {
    hide Records, Legal, After, Ks;
    if pend == [] {
      history' := history;
      assert data[..mark] == data;
    } else {
      assert Pushed(ops, status, pend[0], data[mark + 0]);
      var next := Extend(less, m, ops, status, history, pend[0]);
      assert data[..mark + 1] == data[..mark] + [data[mark]];
      forall j | 0 <= j < |pend[1..]| ensures Pushed(ops, status, pend[1..][j], data[mark + 1 + j]) {
        assert Pushed(ops, status, pend[j + 1], data[mark + (j + 1)]);
      }
      assert pend == [pend[0]] + pend[1..];
      history' := Drain(less, m, ops, status, data, mark + 1, next, pend[1..]);
    }
  }

  ghost function UpTo(n: nat): seq<nat> {
    if n == 0 then [] else UpTo(n - 1) + [n - 1]
  }

  lemma {:induction false} UpToCounts(n: nat, k: nat)
    ensures |UpTo(n)| == n && multiset(UpTo(n))[k] == if k < n then 1 else 0
  {
    if n > 0 {
      UpToCounts(n - 1, k);
    }
  }

  /** Numbers that occur once each below n, and not otherwise, are the numbers of a whole batch. */
  lemma CompleteFromCounts<T>(history: seq<Event<T>>, n: nat)
    requires forall k: nat :: multiset(Ks(history))[k] == if k < n then 1 else 0
    ensures Complete(history, n)
  {
    var ks := Ks(history);
    forall k: nat ensures multiset(ks)[k] == multiset(UpTo(n))[k] { UpToCounts(n, k); }
    assert multiset(ks) == multiset(UpTo(n));
    UpToCounts(n, 0);
    forall k: nat | k < n ensures Occurs(history, k) {
      assert k in multiset(ks);
      var i :| 0 <= i < |ks| && ks[i] == k;
      assert history[i].k == k;
    }
    forall i, j | 0 <= i < j < n ensures history[i].k != history[j].k {
      OnceInSeq(ks, i, j);
    }
  }

  lemma OnceInSeq(s: seq<nat>, i: nat, j: nat)
    requires i < j < |s| && multiset(s)[s[j]] <= 1
    ensures s[i] != s[j]
  {
    assert s == s[..j] + [s[j]] + s[j + 1..];
    assert s[..j][i] == s[i];
  }

  lemma ProgressEnds<T(!new)>(less: (T, T) -> bool, m: multiset<T>, ops: seq<Op<T>>, status: seq<Status<T>>,
      data: seq<T>, mark: nat, history: seq<Event<T>>, pend: seq<nat>)
    requires Progress(less, m, ops, status, data, mark, history, pend, |ops|, [])
    ensures Linearizable(less, m, ops, status, multiset(data))
  {
    hide HeapBut, StrictWeak, Legal, After, Records, Ks;
    var history' := Drain(less, m, ops, status, data, mark, history, pend);
    assert multiset(Ks(history)) + multiset(pend) + multiset([]) == multiset(Ks(history'));
    CompleteFromCounts(history', |ops|);
  }
}
