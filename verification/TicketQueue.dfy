/** The optimistic dequeue protocol of a sub-queue: a consumer first takes a ticket by adding to
    dequeueOptimisticCount, then looks whether the ticket is covered by published elements, and
    gives back what is not by adding to dequeueOvercommit.

    One producer publishes elements by advancing tailIndex; any number of consumers dequeue one
    element (max == 1) or up to max in bulk.  Each step is one access to a shared word.  The four
    shared words are modelled by the unbounded counts behind them, the code's comparisons by the
    comparisons of the wrapped words. */
module TicketQueue {
  import opened Words

  datatype Pc =
    | Idle
    | LoadTail(max: nat)                                   // load tailIndex
    | LoadOver(max: nat, tail: nat)                        // load dequeueOvercommit
    | LoadCount(max: nat, tail: nat, over: nat)            // load dequeueOptimisticCount, compare
    | TakeTicket(desired: nat, over: nat)                  // fetch_add dequeueOptimisticCount
    | Reload(k: nat)                                       // ticket k: load tailIndex again, compare
    | GiveBack(k: nat)                                     // fetch_add dequeueOvercommit
    | Claim(k: nat)                                        // fetch_add headIndex

  /** The history of one ticket: taken when the count was `first`, by a thread that had loaded
      `over`, for `desired` elements; `actual` of them were granted once decided.  `backed` and
      `claimed` tell whether the refused part has reached dequeueOvercommit and the granted part
      headIndex.  No step reads the fields the thread does not itself remember. */
  datatype Ticket = Ticket(
    owner: nat, first: nat, over: nat, desired: nat,
    decided: bool, actual: nat, backed: bool, claimed: bool)

  /** Indices [first, first + count) handed to thread t. */
  datatype Grant = Grant(t: nat, first: nat, count: nat)

  datatype State = State(
    tail: nat, head: nat, optimistic: nat, overcommit: nat,
    pc: seq<Pc>, tickets: seq<Ticket>, grants: seq<Grant>)

  ghost predicate Init(s: State) {
    && s.tail == s.head == s.optimistic == s.overcommit == 0
    && (forall t :: 0 <= t < |s.pc| ==> s.pc[t] == Idle)
    && s.tickets == [] && s.grants == []
  }

  /** Words of the form tail - (count - overcommit), compared with 0 as circular_less_than does. */
  function Available(tail: int, count: int, over: int): int {
    Word(Word(tail) - Word(Word(count) - Word(over)))
  }

  /** What thread t may ask for after its three loads: 0 when the sub-queue looks empty. */
  function Desired(max: nat, tail: int, count: int, over: int): nat {
    var available := Available(tail, count, over);
    if CircularLess(0, available) then (if available < max then available else max) else 0
  }

  function Granted(desired: nat, tail: int, first: int, over: int): nat {
    var available := Available(tail, first, over);
    if CircularLess(0, available) then (if desired < available then desired else available) else 0
  }

  function Goes(s: State, t: nat, p: Pc): State
    requires t < |s.pc|
  {
    s.(pc := s.pc[t := p])
  }

  predicate HasTicket(s: State, p: Pc) {
    p.Reload? || p.GiveBack? || p.Claim? ==> p.k < |s.tickets|
  }

  /** The state after thread t's next access. */
  function Access(s: State, t: nat): State
    requires t < |s.pc| && HasTicket(s, s.pc[t])
  {
    match s.pc[t]
    case Idle => s
    case LoadTail(max) => Goes(s, t, LoadOver(max, s.tail))
    case LoadOver(max, tail) => Goes(s, t, LoadCount(max, tail, s.overcommit))
    case LoadCount(max, tail, over) =>
      var desired := Desired(max, tail, s.optimistic, over);
      Goes(s, t, if desired > 0 then TakeTicket(desired, over) else Idle)
    case TakeTicket(desired, over) =>
      var ticket := Ticket(t, s.optimistic, over, desired, false, 0, false, false);
      Goes(s, t, Reload(|s.tickets|)).(optimistic := s.optimistic + desired, tickets := s.tickets + [ticket])
    case Reload(k) =>
      var x := s.tickets[k];
      var actual := Granted(x.desired, s.tail, x.first, x.over);
      var x' := x.(decided := true, actual := actual, backed := actual == x.desired, claimed := actual == 0);
      Goes(s, t, if actual < x.desired then GiveBack(k) else Claim(k)).(tickets := s.tickets[k := x'])
    case GiveBack(k) =>
      var x := s.tickets[k];
      Goes(s, t, if x.actual > 0 then Claim(k) else Idle).(
        overcommit := s.overcommit + (if x.desired >= x.actual then x.desired - x.actual else 0),
        tickets := s.tickets[k := x.(backed := true)])
    case Claim(k) =>
      var x := s.tickets[k];
      Goes(s, t, Idle).(
        head := s.head + x.actual, grants := s.grants + [Grant(t, s.head, x.actual)],
        tickets := s.tickets[k := x.(claimed := true)])
  }

  ghost predicate Next(s: State, s': State) {
    || (exists n: nat :: Publishes(s, n, s'))
    || (exists t: nat, max: nat :: Begins(s, t, max, s'))
    || (exists t: nat :: Moves(s, t, s'))
  }

  /** The producer advances tailIndex past n new elements. */
  ghost predicate Publishes(s: State, n: nat, s': State) {
    s' == s.(tail := s.tail + n)
  }

  /** Thread t begins to dequeue up to max elements. */
  ghost predicate Begins(s: State, t: nat, max: nat, s': State) {
    t < |s.pc| && max > 0 && s.pc[t].Idle? && s' == Goes(s, t, LoadTail(max))
  }

  ghost predicate Moves(s: State, t: nat, s': State) {
    t < |s.pc| && !s.pc[t].Idle? && HasTicket(s, s.pc[t]) && s' == Access(s, t)
  }

  /** The assumption behind circular_less_than: the quantities a thread compares with zero are less
      than half a turn of the index type away from it. */
  predicate FitsWord(d: int) {
    -HALF < d < HALF
  }

  ghost predicate Fits(s: State) {
    forall t :: 0 <= t < |s.pc| ==>
      match s.pc[t]
      case LoadCount(_, tail, over) => FitsWord(tail - (s.optimistic - over))
      case Reload(k) => k < |s.tickets| ==> FitsWord(s.tail - (s.tickets[k].first - s.tickets[k].over))
      case _ => true
  }

  ghost predicate Run(run: seq<State>) {
    && |run| > 0 && Init(run[0])
    && (forall i :: 0 <= i < |run| ==> Fits(run[i]))
    && (forall i :: 0 <= i < |run| - 1 ==> Next(run[i], run[i + 1]))
  }

  lemma AvailableIs(tail: int, count: int, over: int)
    requires FitsWord(tail - (count - over))
    ensures CircularLess(0, Available(tail, count, over)) <==> tail - (count - over) > 0
    ensures tail - (count - over) > 0 ==> Available(tail, count, over) == tail - (count - over)
  {
    var d := tail - (count - over);
    WordDifference(count, over);
    WordDifference(tail, count - over);
    CircularLessExact(0, d);
  }

  // --------------------------------------------------------------- invariant

  /** Sums over the first n tickets. */
  ghost function Sum(x: seq<Ticket>, n: nat, f: Ticket -> int): int
    requires n <= |x|
  {
    if n == 0 then 0 else Sum(x, n - 1, f) + f(x[n - 1])
  }

  const Asked: Ticket -> int := (x: Ticket) => x.desired
  const Allowed: Ticket -> int := (x: Ticket) => x.actual
  const Refused: Ticket -> int := (x: Ticket) => if x.decided then x.desired - x.actual else 0
  const Backed: Ticket -> int := (x: Ticket) => if x.backed then x.desired - x.actual else 0
  const Claimed: Ticket -> int := (x: Ticket) => if x.claimed then x.actual else 0

  lemma {:induction false} SumUpdate(x: seq<Ticket>, n: nat, k: nat, y: Ticket, f: Ticket -> int)
    requires n <= |x| && k < |x|
    ensures Sum(x[k := y], n, f) == Sum(x, n, f) + if k < n then f(y) - f(x[k]) else 0
  {
    if n > 0 {
      SumUpdate(x, n - 1, k, y, f);
    }
  }

  lemma {:induction false} SumPrefix(x: seq<Ticket>, n: nat, y: Ticket, f: Ticket -> int)
    requires n <= |x|
    ensures Sum(x + [y], n, f) == Sum(x, n, f)
  {
    if n > 0 {
      SumPrefix(x, n - 1, y, f);
    }
  }

  lemma {:induction false} SumAtMost(x: seq<Ticket>, n: nat, f: Ticket -> int, g: Ticket -> int)
    requires n <= |x| && forall k :: 0 <= k < n ==> f(x[k]) <= g(x[k])
    ensures Sum(x, n, f) <= Sum(x, n, g)
  {
    if n > 0 {
      SumAtMost(x, n - 1, f, g);
    }
  }

  /** Between what was asked and what was refused lies at least what was granted. */
  lemma {:induction false} SumGranted(x: seq<Ticket>, n: nat)
    requires n <= |x| && forall k :: 0 <= k < n ==> TicketShape(x[k])
    ensures Sum(x, n, Allowed) <= Sum(x, n, Asked) - Sum(x, n, Refused)
  {
    if n > 0 {
      SumGranted(x, n - 1);
    }
  }

  predicate TicketShape(x: Ticket) {
    && 0 < x.desired && x.actual <= x.desired
    && (!x.decided ==> x.actual == 0 && !x.backed && !x.claimed)
    && (x.decided && x.actual == 0 ==> x.claimed)
    && (x.decided && x.actual == x.desired ==> x.backed)
    && (!x.backed ==> x.actual == 0 || !x.claimed)
  }

  ghost predicate TicketOk(s: State, k: nat)
    requires k < |s.tickets|
  {
    var x := s.tickets[k];
    && TicketShape(x)
    && x.first == Sum(s.tickets, k, Asked)
    && x.over <= Sum(s.tickets, k, Refused)
    && (x.actual > 0 ==> x.first - x.over + x.actual <= s.tail)
    && x.owner < |s.pc|
    && (!x.decided ==> s.pc[x.owner] == Reload(k))
    && (x.decided && !x.backed ==> s.pc[x.owner] == GiveBack(k))
    && (x.decided && x.backed && !x.claimed ==> s.pc[x.owner] == Claim(k))
  }

  ghost predicate PcOk(s: State, t: nat)
    requires t < |s.pc|
  {
    match s.pc[t]
    case Idle => true
    case LoadTail(max) => 0 < max
    case LoadOver(max, tail) => 0 < max && tail <= s.tail
    case LoadCount(max, tail, over) => 0 < max && tail <= s.tail && over <= s.overcommit
    case TakeTicket(desired, over) => 0 < desired && over <= s.overcommit
    case Reload(k) => k < |s.tickets| && s.tickets[k].owner == t && !s.tickets[k].decided
    case GiveBack(k) => k < |s.tickets| && s.tickets[k].owner == t && s.tickets[k].decided && !s.tickets[k].backed
    case Claim(k) =>
      && k < |s.tickets| && s.tickets[k].owner == t
      && s.tickets[k].decided && s.tickets[k].backed && !s.tickets[k].claimed
  }

  /** The grants are consecutive, from index 0 up to headIndex. */
  ghost predicate Consecutive(grants: seq<Grant>, head: nat) {
    if grants == [] then head == 0
    else
      var g := grants[|grants| - 1];
      && 0 < g.count && g.first + g.count == head
      && Consecutive(grants[..|grants| - 1], g.first)
  }

  ghost predicate Inv(s: State) {
    && s.optimistic == Sum(s.tickets, |s.tickets|, Asked)
    && s.overcommit == Sum(s.tickets, |s.tickets|, Backed)
    && s.head == Sum(s.tickets, |s.tickets|, Claimed)
    && (forall k :: 0 <= k < |s.tickets| ==> TicketOk(s, k))
    && (forall t :: 0 <= t < |s.pc| ==> PcOk(s, t))
    && Consecutive(s.grants, s.head)
  }

  lemma BackedAtMostRefused(s: State)
    requires Inv(s)
    ensures s.overcommit <= Sum(s.tickets, |s.tickets|, Refused)
  {
    forall k | 0 <= k < |s.tickets| ensures Backed(s.tickets[k]) <= Refused(s.tickets[k]) {
      assert TicketOk(s, k);
    }
    SumAtMost(s.tickets, |s.tickets|, Backed, Refused);
  }

  /** Moves that leave the tickets alone: the first three loads, and new elements. */
  lemma LoadInv(s: State, t: nat, s': State)
    requires Inv(s) && t < |s.pc|
    requires s' == s.(pc := s.pc[t := if t < |s'.pc| then s'.pc[t] else Idle], tail := s'.tail) && s.tail <= s'.tail
    requires s.pc[t].Idle? || s.pc[t].LoadTail? || s.pc[t].LoadOver? || s.pc[t].LoadCount? || s'.pc == s.pc
    requires PcOk(s', t)
    ensures Inv(s')
  {
    forall k | 0 <= k < |s.tickets| ensures TicketOk(s', k) { assert TicketOk(s, k); }
    forall u | 0 <= u < |s.pc| ensures PcOk(s', u) { assert PcOk(s, u); }
  }

  lemma TakeInv(s: State, t: nat)
    requires Inv(s) && t < |s.pc| && s.pc[t].TakeTicket?
    ensures Inv(Access(s, t))
  {
    var s', n := Access(s, t), |s.tickets|;
    var y := s'.tickets[n];
    assert PcOk(s, t);
    BackedAtMostRefused(s);
    forall k | 0 <= k <= n
      ensures Sum(s'.tickets, k, Asked) == Sum(s.tickets, k, Asked)
      ensures Sum(s'.tickets, k, Refused) == Sum(s.tickets, k, Refused)
    {
      SumPrefix(s.tickets, k, y, Asked);
      SumPrefix(s.tickets, k, y, Refused);
    }
    SumPrefix(s.tickets, n, y, Backed);
    SumPrefix(s.tickets, n, y, Claimed);
    forall k | 0 <= k < |s'.tickets| ensures TicketOk(s', k) {
      if k < n { assert TicketOk(s, k); }
    }
    forall u | 0 <= u < |s.pc| ensures PcOk(s', u) { assert PcOk(s, u); }
  }

  /** A move of the thread that owns ticket k, which changes that ticket only. */
  lemma TicketMoves(s: State, t: nat, k: nat, s': State)
    requires Inv(s) && t < |s.pc| && k < |s.tickets| && s.tickets[k].owner == t
    requires s.pc[t] == Reload(k) || s.pc[t] == GiveBack(k) || s.pc[t] == Claim(k)
    requires |s'.pc| == |s.pc| && s'.pc == s.pc[t := s'.pc[t]] && |s'.tickets| == |s.tickets|
    requires s'.tickets == s.tickets[k := s'.tickets[k]] && s'.tail == s.tail && s.overcommit <= s'.overcommit
    requires var x, y := s.tickets[k], s'.tickets[k];
             x.owner == y.owner && x.desired == y.desired && x.first == y.first && x.over == y.over
               && Refused(x) <= Refused(y)
    requires TicketShape(s'.tickets[k])
    requires var y := s'.tickets[k];
             && (y.actual > 0 ==> y.first - y.over + y.actual <= s.tail)
             && (!y.decided ==> s'.pc[t] == Reload(k))
             && (y.decided && !y.backed ==> s'.pc[t] == GiveBack(k))
             && (y.decided && y.backed && !y.claimed ==> s'.pc[t] == Claim(k))
    requires PcOk(s', t)
    ensures forall j :: 0 <= j < |s'.tickets| ==> TicketOk(s', j)
    ensures forall u :: 0 <= u < |s'.pc| ==> PcOk(s', u)
  {
    var y := s'.tickets[k];
    forall j | 0 <= j < |s'.tickets| ensures TicketOk(s', j) {
      assert TicketOk(s, j);
      SumUpdate(s.tickets, j, k, y, Asked);
      SumUpdate(s.tickets, j, k, y, Refused);
    }
    forall u | 0 <= u < |s.pc| ensures PcOk(s', u) { assert PcOk(s, u); }
  }

  lemma SumsAfter(s: State, k: nat, y: Ticket)
    requires k < |s.tickets|
    ensures var n, x := |s.tickets|, s.tickets[k];
            && Sum(s.tickets[k := y], n, Asked) == Sum(s.tickets, n, Asked) + y.desired - x.desired
            && Sum(s.tickets[k := y], n, Backed) == Sum(s.tickets, n, Backed) + Backed(y) - Backed(x)
            && Sum(s.tickets[k := y], n, Claimed) == Sum(s.tickets, n, Claimed) + Claimed(y) - Claimed(x)
  {
    SumUpdate(s.tickets, |s.tickets|, k, y, Asked);
    SumUpdate(s.tickets, |s.tickets|, k, y, Backed);
    SumUpdate(s.tickets, |s.tickets|, k, y, Claimed);
  }

  lemma ReloadInv(s: State, t: nat)
    requires Inv(s) && Fits(s) && t < |s.pc| && s.pc[t].Reload? && HasTicket(s, s.pc[t])
    ensures Inv(Access(s, t))
  {
    hide Available, Sum;
    var s', k := Access(s, t), s.pc[t].k;
    assert PcOk(s, t) && TicketOk(s, k);
    AvailableIs(s.tail, s.tickets[k].first, s.tickets[k].over);
    SumsAfter(s, k, s'.tickets[k]);
    TicketMoves(s, t, k, s');
  }

  lemma GiveBackInv(s: State, t: nat)
    requires Inv(s) && t < |s.pc| && s.pc[t].GiveBack? && HasTicket(s, s.pc[t])
    ensures Inv(Access(s, t))
  {
    hide Sum;
    var s', k := Access(s, t), s.pc[t].k;
    assert PcOk(s, t) && TicketOk(s, k);
    SumsAfter(s, k, s'.tickets[k]);
    TicketMoves(s, t, k, s');
  }

  lemma ClaimInv(s: State, t: nat)
    requires Inv(s) && t < |s.pc| && s.pc[t].Claim? && HasTicket(s, s.pc[t])
    ensures Inv(Access(s, t))
  {
    hide Sum;
    var s', k := Access(s, t), s.pc[t].k;
    assert PcOk(s, t) && TicketOk(s, k);
    SumsAfter(s, k, s'.tickets[k]);
    TicketMoves(s, t, k, s');
    assert s'.grants[..|s'.grants| - 1] == s.grants;
  }

  lemma StepInv(s: State, s': State)
    requires Inv(s) && Fits(s) && Next(s, s')
    ensures Inv(s')
  {
    if n: nat :| Publishes(s, n, s') {
      forall k | 0 <= k < |s.tickets| ensures TicketOk(s', k) { assert TicketOk(s, k); }
      forall u | 0 <= u < |s.pc| ensures PcOk(s', u) { assert PcOk(s, u); }
    } else if t: nat, max: nat :| Begins(s, t, max, s') {
      LoadInv(s, t, s');
    } else {
      var t: nat :| Moves(s, t, s');
      assert PcOk(s, t);
      match s.pc[t] {
        case TakeTicket(_, _) => TakeInv(s, t);
        case Reload(_) => ReloadInv(s, t);
        case GiveBack(_) => GiveBackInv(s, t);
        case Claim(_) => ClaimInv(s, t);
        case _ => LoadInv(s, t, s');
      }
    }
  }

  lemma {:induction false} RunInv(run: seq<State>, i: nat)
    requires Run(run) && i < |run|
    ensures Inv(run[i])
  {
    if i > 0 {
      RunInv(run, i - 1);
      assert Next(run[i - 1], run[i - 1 + 1]);
      StepInv(run[i - 1], run[i]);
    }
  }

  // ------------------------------------------------------------ main results

  ghost predicate Reachable(s: State) {
    exists run: seq<State> :: Run(run) && run[|run| - 1] == s
  }

  lemma ReachableInv(s: State)
    requires Reachable(s)
    ensures Inv(s) && Fits(s)
  {
    var run: seq<State> :| Run(run) && run[|run| - 1] == s;
    RunInv(run, |run| - 1);
  }

  /** The last granted ticket bounds everything granted: its thread had seen no refusal that is
      not of an earlier ticket. */
  lemma {:induction false} GrantedBound(s: State, n: nat)
    requires Inv(s) && n <= |s.tickets|
    ensures Sum(s.tickets, n, Allowed) <= s.tail
  {
    if n > 0 {
      assert TicketOk(s, n - 1);
      if s.tickets[n - 1].actual == 0 {
        GrantedBound(s, n - 1);
      } else {
        forall k | 0 <= k < n - 1 ensures TicketShape(s.tickets[k]) { assert TicketOk(s, k); }
        SumGranted(s.tickets, n - 1);
      }
    }
  }

  /** Committed dequeues never exceed published elements: neither headIndex as it is, nor headIndex
      after all the threads that have committed but not yet advanced it. */
  lemma HeadWithinTail(s: State)
    requires Reachable(s)
    ensures s.head <= Sum(s.tickets, |s.tickets|, Allowed) <= s.tail
  {
    ReachableInv(s);
    forall k | 0 <= k < |s.tickets| ensures Claimed(s.tickets[k]) <= Allowed(s.tickets[k]) {
      assert TicketOk(s, k);
    }
    SumAtMost(s.tickets, |s.tickets|, Claimed, Allowed);
    GrantedBound(s, |s.tickets|);
  }

  /** A thread about to advance headIndex gets published elements only, whatever the others do
      before it. */
  lemma ClaimIsCovered(s: State, t: nat)
    requires Reachable(s) && t < |s.pc| && s.pc[t].Claim?
    ensures s.pc[t].k < |s.tickets| && 0 < s.tickets[s.pc[t].k].actual
    ensures s.head + s.tickets[s.pc[t].k].actual <= s.tail
  {
    ReachableInv(s);
    assert PcOk(s, t);
    var k := s.pc[t].k;
    assert TicketOk(s, k);
    var y := s.tickets[k].(claimed := true);
    var x := s.tickets[k := y];
    forall j | 0 <= j < |x| ensures Claimed(x[j]) <= Allowed(x[j]) {
      assert TicketOk(s, j);
    }
    SumAtMost(x, |x|, Claimed, Allowed);
    SumUpdate(s.tickets, |x|, k, y, Claimed);
    SumUpdate(s.tickets, |x|, k, y, Allowed);
    GrantedBound(s, |s.tickets|);
  }

  predicate Covers(g: Grant, i: nat) {
    g.first <= i < g.first + g.count
  }

  /** Every index below headIndex was handed to exactly one dequeue, and no index above. */
  lemma EachIndexOnce(s: State, i: nat)
    requires Reachable(s)
    ensures i < s.head <==> exists j :: 0 <= j < |s.grants| && Covers(s.grants[j], i)
    ensures forall j, k :: 0 <= j < k < |s.grants| ==> !(Covers(s.grants[j], i) && Covers(s.grants[k], i))
  {
    ReachableInv(s);
    ConsecutiveCovers(s.grants, s.head, i);
  }

  lemma {:induction false} ConsecutiveCovers(grants: seq<Grant>, head: nat, i: nat)
    requires Consecutive(grants, head)
    ensures i < head <==> exists j :: 0 <= j < |grants| && Covers(grants[j], i)
    ensures forall j, k :: 0 <= j < k < |grants| ==> !(Covers(grants[j], i) && Covers(grants[k], i))
  {
    if grants != [] {
      var n := |grants| - 1;
      ConsecutiveCovers(grants[..n], grants[n].first, i);
      if i < grants[n].first {
        var j :| 0 <= j < n && Covers(grants[..n][j], i);
        assert Covers(grants[j], i);
      } else {
        forall j | 0 <= j < n ensures !Covers(grants[j], i) { assert !Covers(grants[..n][j], i); }
        assert i < head ==> Covers(grants[n], i);
      }
    }
  }

  /** With no dequeue in progress the effective count is exact: optimistic less overcommit is
      headIndex. */
  lemma Quiescent(s: State)
    requires Reachable(s) && forall t :: 0 <= t < |s.pc| ==> s.pc[t].Idle?
    ensures s.optimistic - s.overcommit == s.head
  {
    ReachableInv(s);
    forall k | 0 <= k < |s.tickets| ensures s.tickets[k].decided && s.tickets[k].backed && s.tickets[k].claimed {
      assert TicketOk(s, k);
    }
    SumSettled(s.tickets, |s.tickets|);
  }

  lemma {:induction false} SumSettled(x: seq<Ticket>, n: nat)
    requires n <= |x| && forall k :: 0 <= k < n ==> x[k].decided && x[k].backed && x[k].claimed
    ensures Sum(x, n, Asked) - Sum(x, n, Backed) == Sum(x, n, Claimed)
  {
    if n > 0 {
      SumSettled(x, n - 1);
    }
  }

  /** As many as are wanted, of those there are. */
  function AtMost(wanted: nat, there: int): nat {
    if there <= 0 then 0 else if there < wanted then there else wanted
  }

  /** What a dequeue asks for after its loads: up to max of the elements that the counts it has loaded
      leave over.  It gives up at once only if they leave none. */
  lemma AsksForAll(s: State, t: nat, s': State)
    requires Reachable(s) && Moves(s, t, s') && s.pc[t].LoadCount?
    ensures var p := s.pc[t];
            var n := AtMost(p.max, p.tail - (s.optimistic - p.over));
            s'.pc[t] == if n > 0 then TakeTicket(n, p.over) else Idle
  {
    hide Available;
    ReachableInv(s);
    AvailableIs(s.pc[t].tail, s.optimistic, s.pc[t].over);
  }

  /** What a ticket gets: all of the elements it covers, up to what it was taken for, also when they are
      fewer; it gets none only if it covers none.  Nothing of what was asked gets lost: the rest is
      given back. */
  lemma GetsAllCovered(s: State, t: nat, s': State)
    requires Reachable(s) && Moves(s, t, s') && s.pc[t].Reload?
    ensures s.pc[t].k < |s.tickets| == |s'.tickets|
    ensures var k := s.pc[t].k;
            var x, x' := s.tickets[k], s'.tickets[k];
            && x'.decided && x'.actual == AtMost(x.desired, s.tail - (x.first - x.over))
            && s'.pc[t] == if x'.actual < x.desired then GiveBack(k) else Claim(k)
  {
    hide Available;
    ReachableInv(s);
    var x := s.tickets[s.pc[t].k];
    AvailableIs(s.tail, x.first, x.over);
  }

  /** A dequeue that has been granted something goes on to claim it, exactly that. */
  lemma ClaimsItsGrant(s: State, t: nat, s': State)
    requires Reachable(s) && Moves(s, t, s') && (s.pc[t].GiveBack? || s.pc[t].Claim?)
    ensures s.pc[t].k < |s.tickets|
    ensures var x := s.tickets[s.pc[t].k];
            if s.pc[t].Claim?
            then x.actual > 0 && s'.grants == s.grants + [Grant(t, s.head, x.actual)] && s'.head == s.head + x.actual
            else
              && s'.overcommit + x.actual == s.overcommit + x.desired
              && s'.pc[t] == if x.actual > 0 then Claim(s.pc[t].k) else Idle
  {
    ReachableInv(s);
    assert PcOk(s, t) && TicketOk(s, s.pc[t].k);
  }

  function Steps(s: State, t: nat, n: nat): State
    requires t < |s.pc|
    ensures |Steps(s, t, n).pc| == |s.pc|
  {
    if n == 0 then s else
      var s' := Steps(s, t, n - 1);
      if HasTicket(s', s'.pc[t]) then Access(s', t) else s'
  }

  lemma AloneAsks(s: State, t: nat, max: nat)
    requires t < |s.pc| && max > 0 && s.head < s.tail && FitsWord(s.tail - s.head)
    requires s.optimistic - s.overcommit == s.head
    ensures Steps(Goes(s, t, LoadTail(max)), t, 3)
            == Goes(s, t, TakeTicket(if s.tail - s.head < max then s.tail - s.head else max, s.overcommit))
  {
    hide Available;
    AvailableIs(s.tail, s.optimistic, s.overcommit);
    var s0 := Goes(s, t, LoadTail(max));
    var s1, s2 := Steps(s0, t, 1), Steps(s0, t, 2);
    assert Steps(s0, t, 0) == s0;
    assert s1 == Goes(s, t, LoadOver(max, s.tail)) by { assert s1 == Access(s0, t); }
    assert s2 == Goes(s, t, LoadCount(max, s.tail, s.overcommit)) by { assert s2 == Access(s1, t); }
    assert Steps(s0, t, 3) == Access(s2, t);
  }

  /** So a dequeue that then runs alone on a sub-queue that is not empty succeeds, with as many
      elements as there are up to max, starting at headIndex. */
  lemma AloneSucceeds(s: State, t: nat, max: nat)
    requires Reachable(s) && forall u :: 0 <= u < |s.pc| ==> s.pc[u].Idle?
    requires t < |s.pc| && max > 0 && s.head < s.tail && FitsWord(s.tail - s.head)
    ensures Steps(Goes(s, t, LoadTail(max)), t, 6).pc == s.pc
    ensures Steps(Goes(s, t, LoadTail(max)), t, 6).grants
            == s.grants + [Grant(t, s.head, if s.tail - s.head < max then s.tail - s.head else max)]
  {
    hide Available;
    Quiescent(s);
    AvailableIs(s.tail, s.optimistic, s.overcommit);
    AloneAsks(s, t, max);
    var s0 := Goes(s, t, LoadTail(max));
    var s3, s4, s5 := Steps(s0, t, 3), Steps(s0, t, 4), Steps(s0, t, 5);
    assert s4 == Access(s3, t) && s4.pc[t] == Reload(|s.tickets|) && |s4.tickets| == |s.tickets| + 1;
    assert s5 == Access(s4, t) && s5.pc[t] == Claim(|s.tickets|) && |s5.tickets| == |s.tickets| + 1;
    assert Steps(s0, t, 6) == Access(s5, t);
  }

  /** The condition of the single-element dequeue, written there as a comparison of two words, is
      the condition of the bulk dequeue with max = 1. */
  lemma SingleIsBulkOfOne(tail: int, count: int, over: int)
    requires FitsWord(tail - (count - over))
    ensures CircularLess(Word(Word(count) - Word(over)), Word(tail)) <==> Desired(1, tail, count, over) == 1
    ensures CircularLess(Word(Word(count) - Word(over)), Word(tail)) <==> Granted(1, tail, count, over) == 1
  {
    AvailableIs(tail, count, over);
    WordDifference(count, over);
    CircularLessExact(count - over, tail);
  }

  /** A dequeue under way always has a next step. */
  lemma NotStuck(s: State, t: nat)
    requires Reachable(s) && t < |s.pc| && !s.pc[t].Idle?
    ensures HasTicket(s, s.pc[t]) && Moves(s, t, Access(s, t))
  {
    ReachableInv(s);
    assert PcOk(s, t);
  }
}
