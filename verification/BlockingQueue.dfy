/** The blocking queue: a lightweight semaphore, whose count goes below zero by the number of threads
    that wait, on top of a kernel semaphore, guarding the non-blocking queue.

    Threads interleave one atomic access at a time; the kernel semaphore is a counter with its usual
    contract, and the inner queue is known by the number of its elements: an enqueue adds all of its
    elements, and a dequeue of at most j may return any number of them up to j.  A wait for one
    permit is the wait for at most one.  `initial`, `offered`, `signalled`, `granted`, `enqueued` and
    `dequeued` are history: no step looks at them. */
module BlockingQueue {
  import opened Counting

  const SPINS := 10000

  datatype Mode = Try | Wait | Timed

  datatype Pc =
    | Idle
    | Inner(n: nat)                                         // enqueue n elements: into the inner queue
    | Signal(n: nat)                                        // n elements are in: fetch_add of the count
    | Post(k: nat)                                          // post the kernel semaphore k more times
    | Load(mode: Mode, asked: nat, had: nat)                // tryWaitMany: load the count
    | Cas(mode: Mode, asked: nat, had: nat, seen: int)       //   CAS it down
    | Spin(mode: Mode, asked: nat, left: nat)               // load the count, or give up spinning
    | SpinCas(mode: Mode, asked: nat, left: nat, seen: int)  //   CAS it down
    | Asleep(mode: Mode, asked: nat)                        // in the kernel semaphore
    | Repair(asked: nat)                                    // timed out: load the count
    | Grab(asked: nat)                                      //   try the kernel semaphore
    | Undo(asked: nat, seen: int)                            //   CAS the count back up
    | Taking(mode: Mode, asked: nat, got: nat, left: nat)   // the loop over the inner dequeue

  datatype State = State(
    pc: seq<Pc>,
    count: int,
    kernel: nat,
    elements: nat,
    initial: nat,
    signalled: nat,
    granted: nat,
    enqueued: nat,
    dequeued: nat,
    offered: nat)

  /** The semaphore may start with permits if the inner queue starts with as many elements; the
      blocking queue starts with neither. */
  ghost predicate Init(s: State) {
    && (forall t :: 0 <= t < |s.pc| ==> s.pc[t] == Idle)
    && s.count == s.elements == s.initial && s.kernel == 0
    && s.signalled == s.granted == s.enqueued == s.dequeued == s.offered == 0
  }

  // ------------------------------------------------------------------ steps

  function Max(x: int, y: int): int {
    if x > y then x else y
  }

  /** What is left to a thread's choice, the clock's or the inner queue's. */
  datatype Act =
    | Enqueue(n: nat)
    | Dequeue(mode: Mode, asked: nat)
    | Go
    | TimeOut
    | Takes(j: nat)

  /** tryWaitMany has returned r. */
  function AfterTry(mode: Mode, asked: nat, had: nat, r: nat): Pc {
    if had == 0 && r == 0 && mode != Try && asked > 0 then Spin(mode, asked, SPINS)
    else Taking(mode, asked, had + r, had + r)
  }

  /** One permit is there, after spinning or sleeping. */
  function AfterOne(mode: Mode, asked: nat): Pc {
    if asked > 1 then Load(mode, asked, 1) else Taking(mode, asked, 1, 1)
  }

  function TryOn(mode: Mode, asked: nat, had: nat, seen: int): Pc {
    if seen > 0 then Cas(mode, asked, had, seen) else AfterTry(mode, asked, had, 0)
  }

  /** How far tryWaitMany brings the count down. */
  function Down(seen: int, max: int): int {
    if seen > max then seen - max else 0
  }

  predicate Enabled(s: State, t: nat, a: Act) {
    && t < |s.pc|
    && match s.pc[t]
       case Idle => a.Enqueue? || a.Dequeue?
       case Asleep(mode, _) => (a.Go? && s.kernel > 0) || (a.TimeOut? && mode == Timed)
       case Cas(_, asked, had, seen) => a.Go? && seen > 0 && had <= asked
       case SpinCas(_, asked, left, seen) => a.Go? && seen > 0
       case Post(k) => a.Go? && k > 0
       case Taking(_, _, _, left) => if left == 0 then a.Go? else a.Takes? && a.j <= left && a.j <= s.elements
       case _ => a.Go?
  }

  /** The state after thread t's next access. */
  function Access(s: State, t: nat, a: Act): State
    requires Enabled(s, t, a)
  {
    match s.pc[t]
    case Idle =>
      if a.Enqueue?
      then s.(pc := s.pc[t := Inner(a.n)], offered := s.offered + a.n)
      else s.(pc := s.pc[t := Load(a.mode, a.asked, 0)])
    case Inner(n) =>
      s.(pc := s.pc[t := Signal(n)], elements := s.elements + n, enqueued := s.enqueued + n)
    case Signal(n) =>
      var toRelease := if -s.count < n then -s.count else n;
      s.(pc := s.pc[t := if toRelease > 0 then Post(toRelease) else Idle],
         count := s.count + n, signalled := s.signalled + n)
    case Post(k) =>
      s.(pc := s.pc[t := if k > 1 then Post(k - 1) else Idle], kernel := s.kernel + 1)
    case Load(mode, asked, had) =>
      s.(pc := s.pc[t := TryOn(mode, asked, had, s.count)])
    case Cas(mode, asked, had, seen) =>
      if s.count == seen
      then
        var count := Down(seen, asked - had);
        s.(pc := s.pc[t := AfterTry(mode, asked, had, seen - count)], count := count,
           granted := s.granted + (seen - count))
      else s.(pc := s.pc[t := TryOn(mode, asked, had, s.count)])
    case Spin(mode, asked, left) =>
      if left == 0
      then
        if s.count > 0
        then s.(pc := s.pc[t := AfterOne(mode, asked)], count := s.count - 1, granted := s.granted + 1)
        else s.(pc := s.pc[t := Asleep(mode, asked)], count := s.count - 1)
      else s.(pc := s.pc[t :=
             if s.count > 0 then SpinCas(mode, asked, left - 1, s.count) else Spin(mode, asked, left - 1)])
    case SpinCas(mode, asked, left, seen) =>
      if s.count == seen
      then
        var count := Down(seen, asked);
        s.(pc := s.pc[t := Taking(mode, asked, seen - count, seen - count)], count := count,
           granted := s.granted + (seen - count))
      else s.(pc := s.pc[t := Spin(mode, asked, left)])
    case Asleep(mode, asked) =>
      if a.Go?
      then s.(pc := s.pc[t := AfterOne(mode, asked)], kernel := s.kernel - 1, granted := s.granted + 1)
      else s.(pc := s.pc[t := Repair(asked)])
    case Repair(asked) =>
      s.(pc := s.pc[t := if s.count >= 0 then Grab(asked) else Undo(asked, s.count)])
    case Grab(asked) =>
      if s.kernel > 0
      then s.(pc := s.pc[t := AfterOne(Timed, asked)], kernel := s.kernel - 1, granted := s.granted + 1)
      else s.(pc := s.pc[t := Repair(asked)])
    case Undo(asked, seen) =>
      if s.count == seen
      then s.(pc := s.pc[t := Taking(Timed, asked, 0, 0)], count := seen + 1)
      else s.(pc := s.pc[t := Repair(asked)])
    case Taking(mode, asked, got, left) =>
      if left == 0
      then s.(pc := s.pc[t := Idle])
      else s.(pc := s.pc[t := Taking(mode, asked, got, left - a.j)], elements := s.elements - a.j,
              dequeued := s.dequeued + a.j)
  }

  ghost predicate StepOf(s: State, t: nat, a: Act, s': State) {
    Enabled(s, t, a) && s' == Access(s, t, a)
  }

  ghost predicate Next(s: State, s': State) {
    exists t: nat, a :: StepOf(s, t, a, s')
  }

  /** A run: any interleaving of any number of threads. */
  ghost predicate Run(run: seq<State>) {
    && |run| > 0 && Init(run[0])
    && (forall i :: 0 <= i < |run| - 1 ==> Next(run[i], run[i + 1]))
  }

  ghost predicate Reachable(s: State) {
    exists run: seq<State> :: Run(run) && run[|run| - 1] == s
  }

  // ------------------------------------------------------- what threads stand for

  /** A waiter the count knows of. */
  function Waiting(p: Pc): int {
    if p.Asleep? || p.Repair? || p.Grab? || p.Undo? then 1 else 0
  }

  /** Kernel posts still to come. */
  function Posting(p: Pc): int {
    if p.Post? then p.k else 0
  }

  /** Elements enqueued and not yet signalled. */
  function Unsignalled(p: Pc): int {
    if p.Signal? then p.n else 0
  }

  /** Elements passed to enqueue and not yet in the inner queue. */
  function Offering(p: Pc): int {
    if p.Inner? then p.n else 0
  }

  /** Permits held for elements not yet dequeued. */
  function Holding(p: Pc): int {
    if p.Load? || p.Cas? then p.had else if p.Taking? then p.left else 0
  }

  ghost function Waiters(s: State): int {
    Total(s.pc, Waiting)
  }

  ghost function InFlight(s: State): int {
    Total(s.pc, Posting)
  }

  ghost function ToSignal(s: State): int {
    Total(s.pc, Unsignalled)
  }

  ghost function ToEnqueue(s: State): int {
    Total(s.pc, Offering)
  }

  ghost function Held(s: State): int {
    Total(s.pc, Holding)
  }

  // -------------------------------------------------------------- invariant

  ghost predicate PcOk(p: Pc) {
    && (p.Post? ==> p.k > 0)
    && (p.Load? || p.Cas? ==> p.had <= 1 && (p.had == 1 ==> p.mode != Try && p.asked > 1))
    && (p.Cas? || p.SpinCas? ==> p.seen > 0)
    && (p.Spin? || p.SpinCas? || p.Asleep? ==> p.mode != Try && p.asked > 0)
    && (p.Repair? || p.Grab? || p.Undo? ==> p.asked > 0)
    && (p.Undo? ==> p.seen < 0)
    && (p.Taking? ==> p.left <= p.got <= p.asked && (p.mode == Wait ==> (p.got > 0 <==> p.asked > 0)))
  }

  ghost predicate AllPcOk(pc: seq<Pc>) {
    forall t :: 0 <= t < |pc| ==> PcOk(pc[t])
  }

  ghost predicate Inv(s: State) {
    && AllPcOk(s.pc)
    && Waiters(s) - s.kernel - InFlight(s) == Max(0, -s.count)
    && s.granted + s.count + Waiters(s) == s.initial + s.signalled
    && s.offered == s.enqueued + ToEnqueue(s)
    && s.enqueued == s.signalled + ToSignal(s)
    && s.granted == s.dequeued + Held(s)
    && s.elements + s.dequeued == s.initial + s.enqueued
  }

  lemma InitInv(s: State)
    requires Init(s)
    ensures Inv(s)
  {
    TotalZero(s.pc, Waiting);
    TotalZero(s.pc, Posting);
    TotalZero(s.pc, Unsignalled);
    TotalZero(s.pc, Offering);
    TotalZero(s.pc, Holding);
  }

  lemma Moved(s: State, t: nat, p: Pc)
    requires t < |s.pc|
    ensures var pc := s.pc[t := p];
            && Total(pc, Waiting) == Waiters(s) - Waiting(s.pc[t]) + Waiting(p)
            && Total(pc, Posting) == InFlight(s) - Posting(s.pc[t]) + Posting(p)
            && Total(pc, Unsignalled) == ToSignal(s) - Unsignalled(s.pc[t]) + Unsignalled(p)
            && Total(pc, Offering) == ToEnqueue(s) - Offering(s.pc[t]) + Offering(p)
            && Total(pc, Holding) == Held(s) - Holding(s.pc[t]) + Holding(p)
  {
    TotalUpdate(s.pc, t, p, Waiting);
    TotalUpdate(s.pc, t, p, Posting);
    TotalUpdate(s.pc, t, p, Unsignalled);
    TotalUpdate(s.pc, t, p, Offering);
    TotalUpdate(s.pc, t, p, Holding);
  }

  /** What one access does to the thread's own contribution and to the shared words. */
  ghost predicate Balanced(s: State, p: Pc, s': State, p': Pc) {
    && PcOk(p')
    && s'.initial == s.initial
    && (Waiting(p') - s'.kernel - Posting(p')) - (Waiting(p) - s.kernel - Posting(p)) 
       == Max(0, -s'.count) - Max(0, -s.count)
    && s'.granted + s'.count + Waiting(p') - s'.signalled == s.granted + s.count + Waiting(p) - s.signalled
    && s'.offered - s'.enqueued - Offering(p') == s.offered - s.enqueued - Offering(p)
    && s'.enqueued - s'.signalled - Unsignalled(p') == s.enqueued - s.signalled - Unsignalled(p)
    && s'.granted - s'.dequeued - Holding(p') == s.granted - s.dequeued - Holding(p)
    && s'.elements + s'.dequeued - s'.enqueued == s.elements + s.dequeued - s.enqueued
  }

  ghost predicate BalancedBy(s: State, t: nat, a: Act)
    requires Enabled(s, t, a)
  {
    var s' := Access(s, t, a);
    |s'.pc| == |s.pc| && s'.pc == s.pc[t := s'.pc[t]] && Balanced(s, s.pc[t], s', s'.pc[t])
  }

  lemma ProducerBalanced(s: State, t: nat, a: Act)
    requires Enabled(s, t, a) && PcOk(s.pc[t])
    requires s.pc[t].Idle? || s.pc[t].Inner? || s.pc[t].Signal? || s.pc[t].Post?
    ensures BalancedBy(s, t, a)
  {
  }

  lemma LoadBalanced(s: State, t: nat, a: Act)
    requires Enabled(s, t, a) && PcOk(s.pc[t]) && s.pc[t].Load?
    ensures BalancedBy(s, t, a)
  {
  }

  lemma CasBalanced(s: State, t: nat, a: Act)
    requires Enabled(s, t, a) && PcOk(s.pc[t]) && s.pc[t].Cas?
    ensures BalancedBy(s, t, a)
  {
  }

  lemma SpinBalanced(s: State, t: nat, a: Act)
    requires Enabled(s, t, a) && PcOk(s.pc[t]) && (s.pc[t].Spin? || s.pc[t].SpinCas?)
    ensures BalancedBy(s, t, a)
  {
  }

  lemma SleepBalanced(s: State, t: nat, a: Act)
    requires Enabled(s, t, a) && PcOk(s.pc[t]) && (s.pc[t].Asleep? || s.pc[t].Repair?)
    ensures BalancedBy(s, t, a)
  {
  }

  lemma RepairBalanced(s: State, t: nat, a: Act)
    requires Enabled(s, t, a) && PcOk(s.pc[t]) && (s.pc[t].Grab? || s.pc[t].Undo? || s.pc[t].Taking?)
    ensures BalancedBy(s, t, a)
  {
  }

  lemma AccessBalanced(s: State, t: nat, a: Act)
    requires Enabled(s, t, a) && PcOk(s.pc[t])
    ensures BalancedBy(s, t, a)
  {
    hide BalancedBy, PcOk;
    match s.pc[t] {
      case Idle => ProducerBalanced(s, t, a);
      case Inner(_) => ProducerBalanced(s, t, a);
      case Signal(_) => ProducerBalanced(s, t, a);
      case Post(_) => ProducerBalanced(s, t, a);
      case Load(_, _, _) => LoadBalanced(s, t, a);
      case Cas(_, _, _, _) => CasBalanced(s, t, a);
      case Spin(_, _, _) => SpinBalanced(s, t, a);
      case SpinCas(_, _, _, _) => SpinBalanced(s, t, a);
      case Asleep(_, _) => SleepBalanced(s, t, a);
      case Repair(_) => SleepBalanced(s, t, a);
      case Grab(_) => RepairBalanced(s, t, a);
      case Undo(_, _) => RepairBalanced(s, t, a);
      case Taking(_, _, _, _) => RepairBalanced(s, t, a);
    }
  }

  /** Every access keeps the books. */
  lemma StepInv(s: State, t: nat, a: Act, s': State)
    requires Inv(s) && StepOf(s, t, a, s')
    ensures Inv(s')
  {
    hide Access, PcOk;
    AccessBalanced(s, t, a);
    Moved(s, t, s'.pc[t]);
  }

  lemma {:induction false} RunInv(run: seq<State>, i: nat)
    requires Run(run) && i < |run|
    ensures Inv(run[i]) && run[i].initial == run[0].initial
  {
    hide Inv, StepOf;
    if i == 0 {
      InitInv(run[0]);
    } else {
      RunInv(run, i - 1);
      assert Next(run[i - 1], run[i]);
      var t: nat, a :| StepOf(run[i - 1], t, a, run[i]);
      StepInv(run[i - 1], t, a, run[i]);
      SameInitial(run[i - 1], t, a, run[i]);
    }
  }

  lemma SameInitial(s: State, t: nat, a: Act, s': State)
    requires StepOf(s, t, a, s')
    ensures s'.initial == s.initial
  {
  }

  lemma ReachableInv(s: State)
    requires Reachable(s)
    ensures Inv(s)
  {
    var run :| Run(run) && run[|run| - 1] == s;
    RunInv(run, |run| - 1);
  }

  // ----------------------------------------------------------- main results

  lemma NonNegative(s: State)
    requires Inv(s)
    ensures Waiters(s) >= 0 && InFlight(s) >= 0 && ToSignal(s) >= 0 && ToEnqueue(s) >= 0 && Held(s) >= 0
    ensures forall t :: 0 <= t < |s.pc| ==>
              Waiting(s.pc[t]) <= Waiters(s) && Posting(s.pc[t]) <= InFlight(s) && Holding(s.pc[t]) <= Held(s)
  {
    hide PcOk;
    TotalDominates(s.pc, Waiting);
    TotalDominates(s.pc, Posting);
    TotalDominates(s.pc, Unsignalled);
    TotalDominates(s.pc, Offering);
    TotalDominates(s.pc, Holding);
  }

  /** Semaphore accounting: a negative count is the number of waiters no kernel permit is there or on
      its way for; permits granted, permits free and waiters add up to all that was ever signalled. */
  lemma Accounting(s: State)
    requires Reachable(s)
    ensures Waiters(s) - s.kernel - InFlight(s) == Max(0, -s.count)
    ensures s.granted + s.count + Waiters(s) == s.initial + s.signalled
    ensures s.granted <= s.initial + s.signalled
    ensures s.kernel + InFlight(s) <= Waiters(s)
  {
    ReachableInv(s);
    NonNegative(s);
  }

  /** A waiter that has timed out and sees a count of zero or more finds a kernel permit for it
      present or on its way, so that its loop does not wait for a further signal. */
  lemma TimedOutHasPermit(s: State, t: nat)
    requires Reachable(s) && t < |s.pc| && s.pc[t].Repair? && s.count >= 0
    ensures s.kernel + InFlight(s) == Waiters(s) >= 1
  {
    ReachableInv(s);
    NonNegative(s);
  }

  /** A waiter that withdraws takes no permit with it: those left are still all for other waiters. */
  lemma WithdrawalLeavesPermits(s: State, t: nat, s': State)
    requires Reachable(s) && StepOf(s, t, Go, s') && s.pc[t].Undo? && s'.pc[t].Taking?
    ensures Waiters(s') == Waiters(s) - 1 && s'.kernel + InFlight(s') == s.kernel + InFlight(s) <= Waiters(s')
    ensures s'.granted == s.granted
  {
    ReachableInv(s);
    NonNegative(s);
    Moved(s, t, s'.pc[t]);
  }

  /** Conservation: the inner queue holds an element for each free permit, each permit in the kernel
      or on its way there, each permit held and not used, and each one enqueued but not signalled. */
  lemma Conservation(s: State)
    requires Reachable(s)
    ensures s.elements == Max(0, s.count) + s.kernel + InFlight(s) + Held(s) + ToSignal(s)
    ensures s.elements + s.dequeued == s.initial + s.enqueued && s.enqueued == s.offered - ToEnqueue(s)
  {
    ReachableInv(s);
  }

  /** Nobody enters the loop over the inner dequeue without elements reserved: there are at least as
      many as it still has to take, together with those any other thread in the loop has to. */
  lemma ElementReserved(s: State, t: nat, u: nat)
    requires Reachable(s) && t < u < |s.pc| && s.pc[t].Taking? && s.pc[u].Taking?
    ensures s.elements >= s.pc[t].left + s.pc[u].left
  {
    ReachableInv(s);
    NonNegative(s);
    TotalDominates(s.pc, Holding);
    assert Holding(s.pc[t]) + Holding(s.pc[u]) <= Held(s);
  }

  /** The loop over the inner dequeue is never stuck on an empty queue. */
  lemma LoopHasElements(s: State, t: nat)
    requires Reachable(s) && t < |s.pc| && s.pc[t].Taking?
    ensures s.elements >= s.pc[t].left
    ensures s.pc[t].left > 0 ==> Enabled(s, t, Takes(s.pc[t].left))
  {
    ReachableInv(s);
    NonNegative(s);
    assert Holding(s.pc[t]) <= Held(s);
  }

  /** No lost wake-up: with every thread idle or asleep in the kernel, either each sleeper has a
      kernel permit to wake it, or nothing is left in the queue beyond the permits there are. */
  lemma NoLostWakeUp(s: State)
    requires Reachable(s)
    requires forall t :: 0 <= t < |s.pc| ==> s.pc[t].Idle? || s.pc[t].Asleep?
    ensures s.elements == Max(0, s.count) + s.kernel
    ensures s.kernel == Waiters(s) || s.elements == s.kernel < Waiters(s)
  {
    ReachableInv(s);
    NonNegative(s);
    TotalZero(s.pc, Posting);
    TotalZero(s.pc, Unsignalled);
    TotalZero(s.pc, Offering);
    TotalZero(s.pc, Holding);
  }

  /** What a dequeue returns in the end: never more than asked; and an untimed wait returns something
      exactly when it asked for something. */
  lemma Returned(s: State, t: nat)
    requires Reachable(s) && t < |s.pc| && s.pc[t].Taking?
    ensures s.pc[t].got <= s.pc[t].asked
    ensures s.pc[t].mode == Wait ==> (s.pc[t].got > 0 <==> s.pc[t].asked > 0)
  {
    ReachableInv(s);
  }

  /** How many a dequeue was asked for, wherever it is; none for an enqueue. */
  function Asked(p: Pc): nat {
    match p
    case Load(_, asked, _) => asked
    case Cas(_, asked, _, _) => asked
    case Spin(_, asked, _) => asked
    case SpinCas(_, asked, _, _) => asked
    case Asleep(_, asked) => asked
    case Repair(asked) => asked
    case Grab(asked) => asked
    case Undo(asked, _) => asked
    case Taking(_, asked, _, _) => asked
    case _ => 0
  }

  /** A dequeue is greedy.  It goes on to take elements with fewer permits than it was asked for only
      when none is free any more: it has taken all there were, or there was none to take.  That goes
      for tries, waits and waits that time out alike. */
  lemma Greedy(s: State, t: nat, a: Act, s': State)
    requires Reachable(s) && StepOf(s, t, a, s') && !s.pc[t].Taking? && s'.pc[t].Taking?
    ensures s'.pc[t].asked == Asked(s.pc[t]) && s'.pc[t].left == s'.pc[t].got
    ensures s'.pc[t].got < s'.pc[t].asked ==> s'.count <= 0
  {
    ReachableInv(s);
    assert PcOk(s.pc[t]);
  }

  /** A dequeue that was asked for something comes away with nothing only if it was a try, or if it had
      a time limit, went to sleep and has timed out. */
  lemma EmptyHanded(s: State, t: nat, a: Act, s': State)
    requires Reachable(s) && StepOf(s, t, a, s') && !s.pc[t].Taking? && s'.pc[t].Taking?
    requires s'.pc[t].got == 0 && s'.pc[t].asked > 0
    ensures s'.pc[t].mode == Try || (s'.pc[t].mode == Timed && s.pc[t].Undo?)
  {
    ReachableInv(s);
    assert PcOk(s.pc[t]);
  }

  /** Withdrawing is only for those who have slept until their time was up. */
  lemma WithdrawsAfterTimeOut(s: State, t: nat, a: Act, s': State)
    requires StepOf(s, t, a, s') && (s'.pc[t].Repair? || s'.pc[t].Grab? || s'.pc[t].Undo?)
    ensures s.pc[t].Repair? || s.pc[t].Grab? || s.pc[t].Undo?
         || (s.pc[t].Asleep? && s.pc[t].mode == Timed && a.TimeOut?)
  {
  }

  /** A successful CAS takes the permits there are, up to what is still asked for, and no other step
      takes more than one. */
  lemma TakesWhatThereIs(s: State, t: nat, a: Act, s': State)
    requires Reachable(s) && StepOf(s, t, a, s') && s'.granted > s.granted
    ensures (s.pc[t].Cas? || s.pc[t].SpinCas?) ==>
              && s'.granted - s.granted == s.count - s'.count
              && (s'.count == 0 || s'.granted - s.granted == Asked(s.pc[t]) - Holding(s.pc[t]))
              && s'.granted - s.granted <= Asked(s.pc[t]) - Holding(s.pc[t])
    ensures !s.pc[t].Cas? && !s.pc[t].SpinCas? ==> s'.granted == s.granted + 1
  {
    ReachableInv(s);
    assert PcOk(s.pc[t]);
  }

  /** From its beginning to the end a dequeue stays one for as many elements; it ends when it has
      dequeued one for each of its permits. */
  lemma StaysTheSame(s: State, t: nat, a: Act, s': State)
    requires StepOf(s, t, a, s') && (a.Dequeue? || Asked(s.pc[t]) > 0)
    ensures a.Dequeue? ==> Asked(s'.pc[t]) == a.asked
    ensures !a.Dequeue? ==> Asked(s'.pc[t]) == Asked(s.pc[t]) || (s.pc[t].Taking? && s.pc[t].left == 0)
  {
  }

  /** The assertion at the end of the untimed waitMany does fail for a wait that asks for none. */
  lemma WaitForNone()
    ensures exists s :: Reachable(s) && |s.pc| == 1 && s.pc[0] == Taking(Wait, 0, 0, 0)
  {
    var s0 := State([Idle], 0, 0, 0, 0, 0, 0, 0, 0, 0);
    var s1 := Access(s0, 0, Dequeue(Wait, 0));
    var s2 := Access(s1, 0, Go);
    var run := [s0, s1, s2];
    assert StepOf(s0, 0, Dequeue(Wait, 0), s1) && StepOf(s1, 0, Go, s2);
    assert Run(run) && run[|run| - 1] == s2;
    assert Reachable(s2);
  }

  /** When no operation is under way the books are closed: as many elements as permits, all free, and
      every element passed to enqueue and not dequeued still there. */
  lemma Quiescent(s: State)
    requires Reachable(s) && forall t :: 0 <= t < |s.pc| ==> s.pc[t].Idle?
    ensures s.elements == s.count == s.initial + s.offered - s.dequeued
    ensures s.kernel == 0 && s.granted == s.dequeued && s.signalled == s.enqueued == s.offered
  {
    ReachableInv(s);
    TotalZero(s.pc, Waiting);
    TotalZero(s.pc, Posting);
    TotalZero(s.pc, Unsignalled);
    TotalZero(s.pc, Offering);
    TotalZero(s.pc, Holding);
  }
}
