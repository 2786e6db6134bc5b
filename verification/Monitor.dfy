/** The monitor: a thread prepares to wait by putting its context into the wait set, and then commits,
    sleeping on its own semaphore, or cancels; notifiers take contexts out of the set and only then,
    with the lock released, signal their semaphores.

    Threads interleave one access at a time, each critical section being one.  A context is named by
    its thread.  `place`, `notified` and `seenAt` are history: no step looks at them. */
module Monitor {
  import opened Counting

  const WORD := 0x1_0000_0000

  datatype Kind = One | All | Those(chosen: set<nat>)

  datatype Pc =
    | Idle
    | Pump                          // prepare_wait: P for an earlier spurious wake-up
    | Mark                          //   in_waitset = true
    | Add                           //   critical section: copy the epoch, join the wait set
    | Prepared                      // between prepare_wait and commit_wait or cancel_wait
    | Block                         // commit_wait: P
    | Suspect                       // cancel_wait: spurious = true
    | CancelLook                    //   still marked as in the wait set?
    | CancelLock                    //   critical section: look again, and leave the wait set
    | NotifyLook(kind: Kind)        // notify: is the wait set empty?
    | NotifyTake(kind: Kind)        //   critical section: advance the epoch, take contexts out
    | Wake(list: seq<nat>)          //   V their semaphores, one by one

  datatype Place = Out | In | Owed(notifier: nat) | Given

  datatype State = State(
    pc: seq<Pc>,
    waitset: seq<nat>,
    epoch: nat,
    seen: seq<nat>,
    inWaitset: seq<bool>,
    spurious: seq<bool>,
    sem: seq<nat>,
    place: seq<Place>,
    notified: nat,                // critical sections of notifications so far
    seenAt: seq<nat>)             // as many as there were when the thread joined the wait set

  predicate Sizes(s: State) {
    |s.seen| == |s.inWaitset| == |s.spurious| == |s.sem| == |s.place| == |s.seenAt| == |s.pc|
  }

  ghost predicate Init(s: State) {
    && Sizes(s) && s.waitset == [] && s.epoch == s.notified == 0
    && (forall t :: 0 <= t < |s.pc| ==> s.pc[t] == Idle && s.place[t] == Out)
    && (forall t :: 0 <= t < |s.pc| ==> !s.inWaitset[t] && !s.spurious[t] && s.sem[t] == 0)
  }

  // ------------------------------------------------------------------ steps

  datatype Act = PrepareWait | Notify(kind: Kind) | Commit | Cancel | Go

  predicate Enabled(s: State, t: nat, a: Act) {
    && t < |s.pc| && Sizes(s)
    && match s.pc[t]
       case Idle => a.PrepareWait? || a.Notify?
       case Prepared => a.Commit? || a.Cancel?
       case Pump => a.Go? && s.sem[t] > 0
       case Block => a.Go? && s.sem[t] > 0
       case NotifyTake(_) => a.Go?
       case Wake(list) => a.Go? && (list != [] ==> list[0] < |s.pc|)
       case _ => a.Go?
  }

  /** The contexts a notification takes, in the order in which they are signalled: notify_one the
      first, notify_all all from the front, notify those chosen from the back. */
  function Taken(waitset: seq<nat>, kind: Kind): seq<nat> {
    match kind
    case One => if waitset == [] then [] else [waitset[0]]
    case All => waitset
    case Those(chosen) => Chosen(waitset, chosen)
  }

  function Chosen(waitset: seq<nat>, chosen: set<nat>): seq<nat> {
    if waitset == [] then []
    else
      var last := waitset[|waitset| - 1];
      (if last in chosen then [last] else []) + Chosen(waitset[..|waitset| - 1], chosen)
  }

  /** The rest keeps its order. */
  function Left(waitset: seq<nat>, taken: seq<nat>): seq<nat> {
    if waitset == [] then []
    else
      var last := waitset[|waitset| - 1];
      Left(waitset[..|waitset| - 1], taken) + (if last in taken then [] else [last])
  }

  function Cleared(flags: seq<bool>, taken: seq<nat>): (r: seq<bool>)
    ensures |r| == |flags|
  {
    seq(|flags|, i requires 0 <= i < |flags| => flags[i] && i !in taken)
  }

  function Owing(place: seq<Place>, taken: seq<nat>, notifier: nat): (r: seq<Place>)
    ensures |r| == |place|
  {
    seq(|place|, i requires 0 <= i < |place| => if i in taken then Owed(notifier) else place[i])
  }

  /** The state after thread t's next access. */
  function Access(s: State, t: nat, a: Act): State
    requires Enabled(s, t, a)
  {
    match s.pc[t]
    case Idle =>
      if a.Notify? then s.(pc := s.pc[t := NotifyLook(a.kind)])
      else if s.spurious[t] then s.(pc := s.pc[t := Pump], spurious := s.spurious[t := false])
      else s.(pc := s.pc[t := Mark])
    case Pump =>
      s.(pc := s.pc[t := Mark], sem := s.sem[t := s.sem[t] - 1], place := s.place[t := Out])
    case Mark =>
      s.(pc := s.pc[t := Add], inWaitset := s.inWaitset[t := true])
    case Add =>
      s.(pc := s.pc[t := Prepared], seen := s.seen[t := s.epoch], waitset := s.waitset + [t],
         place := s.place[t := In], seenAt := s.seenAt[t := s.notified])
    case Prepared =>
      s.(pc := s.pc[t := if a.Commit? && s.seen[t] == s.epoch then Block else Suspect])
    case Block =>
      s.(pc := s.pc[t := Idle], sem := s.sem[t := s.sem[t] - 1], place := s.place[t := Out])
    case Suspect =>
      s.(pc := s.pc[t := CancelLook], spurious := s.spurious[t := true])
    case CancelLook =>
      s.(pc := s.pc[t := if s.inWaitset[t] then CancelLock else Idle])
    case CancelLock =>
      if s.inWaitset[t]
      then s.(pc := s.pc[t := Idle], inWaitset := s.inWaitset[t := false], spurious := s.spurious[t := false],
              waitset := Left(s.waitset, [t]), place := s.place[t := Out])
      else s.(pc := s.pc[t := Idle])
    case NotifyLook(kind) =>
      s.(pc := s.pc[t := if s.waitset == [] then Idle else NotifyTake(kind)])
    case NotifyTake(kind) =>
      var taken := Taken(s.waitset, kind);
      s.(pc := s.pc[t := Wake(taken)], epoch := (s.epoch + 1) % WORD, waitset := Left(s.waitset, taken),
         notified := s.notified + 1,
         inWaitset := Cleared(s.inWaitset, taken), place := Owing(s.place, taken, t))
    case Wake(list) =>
      if list == [] then s.(pc := s.pc[t := Idle])
      else s.(pc := s.pc[t := Wake(list[1..])], sem := s.sem[list[0] := s.sem[list[0]] + 1],
              place := s.place[list[0] := Given])
  }

  ghost predicate StepOf(s: State, t: nat, a: Act, s': State) {
    Enabled(s, t, a) && s' == Access(s, t, a)
  }

  ghost predicate Next(s: State, s': State) {
    exists t: nat, a :: StepOf(s, t, a, s')
  }

  /** A run: any interleaving of any number of threads. */
  ghost predicate Run(run: seq<State>) {
    && |run| > 0 && Init(run[0])
    && (forall i :: 0 <= i < |run| - 1 ==> Next(run[i], run[i + 1]))
  }

  ghost predicate Reachable(s: State) {
    exists run: seq<State> :: Run(run) && run[|run| - 1] == s
  }

  // -------------------------------------------------------------- invariant

  /** A wake-up of the thread is due or there. */
  predicate Due(p: Place) {
    p.Owed? || p.Given?
  }

  ghost predicate ContextOk(s: State, t: nat)
    requires Sizes(s) && t < |s.pc|
  {
    var p, place := s.pc[t], s.place[t];
    && s.sem[t] == (if place.Given? then 1 else 0)
    && (t in s.waitset <==> place.In?)
    && (s.inWaitset[t] <==> place.In? || p.Add?)
    && (place.Owed? ==> place.notifier < |s.pc| && s.pc[place.notifier].Wake? && t in s.pc[place.notifier].list)
    && (p.Idle? || p.NotifyLook? || p.NotifyTake? || p.Wake? ==> !place.In? && (s.spurious[t] <==> Due(place)))
    && (p.Pump? ==> !s.spurious[t] && Due(place))
    && (p.Mark? || p.Add? ==> !s.spurious[t] && place.Out?)
    && (p.Prepared? || p.Block? || p.Suspect? ==> !s.spurious[t] && !place.Out?)
    && (p.CancelLook? || p.CancelLock? ==> s.spurious[t] && !place.Out?)
  }

  ghost predicate WakerOk(s: State, t: nat)
    requires Sizes(s) && t < |s.pc|
  {
    s.pc[t].Wake? ==>
      && AllDistinct(s.pc[t].list)
      && forall x :: x in s.pc[t].list ==> x < |s.pc| && s.place[x] == Owed(t)
  }

  ghost predicate Inv(s: State) {
    && Sizes(s)
    && AllDistinct(s.waitset) && (forall i :: 0 <= i < |s.waitset| ==> s.waitset[i] < |s.pc|)
    && (forall t :: 0 <= t < |s.pc| ==> ContextOk(s, t))
    && (forall t :: 0 <= t < |s.pc| ==> WakerOk(s, t))
  }

  lemma InitInv(s: State)
    requires Init(s)
    ensures Inv(s)
  {
  }

  lemma {:induction false} LeftMembers(waitset: seq<nat>, taken: seq<nat>)
    requires AllDistinct(waitset)
    ensures AllDistinct(Left(waitset, taken))
    ensures forall x :: x in Left(waitset, taken) <==> x in waitset && x !in taken
  {
    if waitset != [] {
      var before, last := waitset[..|waitset| - 1], waitset[|waitset| - 1];
      LeftMembers(before, taken);
      assert waitset == before + [last];
      assert last !in before;
    }
  }

  lemma {:induction false} ChosenMembers(waitset: seq<nat>, chosen: set<nat>)
    requires AllDistinct(waitset)
    ensures AllDistinct(Chosen(waitset, chosen))
    ensures forall x :: x in Chosen(waitset, chosen) <==> x in waitset && x in chosen
  {
    if waitset != [] {
      var before, last := waitset[..|waitset| - 1], waitset[|waitset| - 1];
      ChosenMembers(before, chosen);
      assert waitset == before + [last];
      assert last !in before;
    }
  }

  lemma TakenMembers(waitset: seq<nat>, kind: Kind)
    requires AllDistinct(waitset)
    ensures AllDistinct(Taken(waitset, kind))
    ensures forall x :: x in Taken(waitset, kind) ==> x in waitset
  {
    if kind.Those? {
      ChosenMembers(waitset, kind.chosen);
    }
  }

  lemma AllBelow(xs: seq<nat>, m: nat)
    requires forall x :: x in xs ==> x < m
    ensures forall i :: 0 <= i < |xs| ==> xs[i] < m
  {
    forall i | 0 <= i < |xs| ensures xs[i] < m {
      assert xs[i] in xs;
    }
  }

  lemma IdleInv(s: State, t: nat, a: Act)
    requires Inv(s) && Enabled(s, t, a) && (s.pc[t].Idle?)
    ensures Inv(Access(s, t, a))
  {
    hide AllDistinct, Left, Taken;
    var s' := Access(s, t, a);
    assert ContextOk(s, t) && WakerOk(s, t);
    forall u | 0 <= u < |s.pc| ensures ContextOk(s', u) && WakerOk(s', u) {
      assert ContextOk(s, u) && WakerOk(s, u);
    }
  }

  lemma SemaphoreInv(s: State, t: nat, a: Act)
    requires Inv(s) && Enabled(s, t, a) && (s.pc[t].Pump? || s.pc[t].Block?)
    ensures Inv(Access(s, t, a))
  {
    hide AllDistinct, Left, Taken;
    var s' := Access(s, t, a);
    assert ContextOk(s, t) && WakerOk(s, t);
    forall u | 0 <= u < |s.pc| ensures ContextOk(s', u) && WakerOk(s', u) {
      assert ContextOk(s, u) && WakerOk(s, u);
    }
  }

  lemma MarkInv(s: State, t: nat, a: Act)
    requires Inv(s) && Enabled(s, t, a) && (s.pc[t].Mark?)
    ensures Inv(Access(s, t, a))
  {
    hide AllDistinct, Left, Taken;
    var s' := Access(s, t, a);
    assert ContextOk(s, t) && WakerOk(s, t);
    forall u | 0 <= u < |s.pc| ensures ContextOk(s', u) && WakerOk(s', u) {
      assert ContextOk(s, u) && WakerOk(s, u);
    }
  }

  lemma AddInv(s: State, t: nat, a: Act)
    requires Inv(s) && Enabled(s, t, a) && (s.pc[t].Add?)
    ensures Inv(Access(s, t, a))
  {
    hide AllDistinct, Left, Taken;
    var s' := Access(s, t, a);
    assert ContextOk(s, t) && WakerOk(s, t);
    AddedDistinct(s.waitset, t);
    forall u | 0 <= u < |s.pc| ensures ContextOk(s', u) && WakerOk(s', u) {
      assert ContextOk(s, u) && WakerOk(s, u);
    }
  }

  lemma PreparedInv(s: State, t: nat, a: Act)
    requires Inv(s) && Enabled(s, t, a) && (s.pc[t].Prepared? || s.pc[t].Suspect?)
    ensures Inv(Access(s, t, a))
  {
    hide AllDistinct, Left, Taken;
    var s' := Access(s, t, a);
    assert ContextOk(s, t) && WakerOk(s, t);
    forall u | 0 <= u < |s.pc| ensures ContextOk(s', u) && WakerOk(s', u) {
      assert ContextOk(s, u) && WakerOk(s, u);
    }
  }

  lemma CancelLookInv(s: State, t: nat, a: Act)
    requires Inv(s) && Enabled(s, t, a) && (s.pc[t].CancelLook?)
    ensures Inv(Access(s, t, a))
  {
    hide AllDistinct, Left, Taken;
    var s' := Access(s, t, a);
    assert ContextOk(s, t) && WakerOk(s, t);
    forall u | 0 <= u < |s.pc| ensures ContextOk(s', u) && WakerOk(s', u) {
      assert ContextOk(s, u) && WakerOk(s, u);
    }
  }

  lemma CancelLockInv(s: State, t: nat, a: Act)
    requires Inv(s) && Enabled(s, t, a) && (s.pc[t].CancelLock?)
    ensures Inv(Access(s, t, a))
  {
    hide AllDistinct, Left, Taken;
    var s' := Access(s, t, a);
    assert ContextOk(s, t) && WakerOk(s, t);
    LeftMembers(s.waitset, [t]);
    AllBelow(Left(s.waitset, [t]), |s.pc|);
    forall u | 0 <= u < |s.pc| ensures ContextOk(s', u) && WakerOk(s', u) {
      assert ContextOk(s, u) && WakerOk(s, u);
    }
  }

  lemma NotifyLookInv(s: State, t: nat, a: Act)
    requires Inv(s) && Enabled(s, t, a) && (s.pc[t].NotifyLook?)
    ensures Inv(Access(s, t, a))
  {
    hide AllDistinct, Left, Taken;
    var s' := Access(s, t, a);
    assert ContextOk(s, t) && WakerOk(s, t);
    forall u | 0 <= u < |s.pc| ensures ContextOk(s', u) && WakerOk(s', u) {
      assert ContextOk(s, u) && WakerOk(s, u);
    }
  }

  lemma NotifyTakeInv(s: State, t: nat, a: Act)
    requires Inv(s) && Enabled(s, t, a) && (s.pc[t].NotifyTake?)
    ensures Inv(Access(s, t, a))
  {
    hide AllDistinct, Left, Taken;
    var s' := Access(s, t, a);
    assert ContextOk(s, t) && WakerOk(s, t);
    var taken := Taken(s.waitset, s.pc[t].kind);
    forall x | x in s.waitset ensures x < |s.pc| && s.place[x].In? {
      assert ContextOk(s, x);
    }
    TakenMembers(s.waitset, s.pc[t].kind);
    LeftMembers(s.waitset, taken);
    AllBelow(Left(s.waitset, taken), |s.pc|);
    forall u | 0 <= u < |s.pc| ensures ContextOk(s', u) && WakerOk(s', u) {
      assert ContextOk(s, u) && WakerOk(s, u);
    }
  }

  lemma WakeInv(s: State, t: nat, a: Act)
    requires Inv(s) && Enabled(s, t, a) && (s.pc[t].Wake?)
    ensures Inv(Access(s, t, a))
  {
    hide AllDistinct, Left, Taken;
    var s' := Access(s, t, a);
    assert ContextOk(s, t) && WakerOk(s, t);
    if s.pc[t].list != [] {
      TailDistinct(s.pc[t].list);
    }
    forall u | 0 <= u < |s.pc| ensures ContextOk(s', u) && WakerOk(s', u) {
      assert ContextOk(s, u) && WakerOk(s, u);
    }
  }

  lemma AddedDistinct(xs: seq<nat>, x: nat)
    requires AllDistinct(xs) && x !in xs
    ensures AllDistinct(xs + [x])
  {
  }

  lemma TailDistinct(xs: seq<nat>)
    requires AllDistinct(xs) && xs != []
    ensures AllDistinct(xs[1..]) && xs[0] !in xs[1..]
    ensures forall x :: x in xs <==> x == xs[0] || x in xs[1..]
  {
    assert xs == [xs[0]] + xs[1..];
  }

  lemma StepInv(s: State, t: nat, a: Act, s': State)
    requires Inv(s) && StepOf(s, t, a, s')
    ensures Inv(s')
  {
    hide Inv, Access;
    match s.pc[t] {
      case Idle => IdleInv(s, t, a);
      case Pump => SemaphoreInv(s, t, a);
      case Mark => MarkInv(s, t, a);
      case Add => AddInv(s, t, a);
      case Prepared => PreparedInv(s, t, a);
      case Block => SemaphoreInv(s, t, a);
      case Suspect => PreparedInv(s, t, a);
      case CancelLook => CancelLookInv(s, t, a);
      case CancelLock => CancelLockInv(s, t, a);
      case NotifyLook(_) => NotifyLookInv(s, t, a);
      case NotifyTake(_) => NotifyTakeInv(s, t, a);
      case Wake(_) => WakeInv(s, t, a);
    }
  }

  lemma {:induction false} RunInv(run: seq<State>, i: nat)
    requires Run(run) && i < |run|
    ensures Inv(run[i])
  {
    hide Inv, StepOf;
    if i == 0 {
      InitInv(run[0]);
    } else {
      RunInv(run, i - 1);
      assert Next(run[i - 1], run[i - 1 + 1]);
      var t: nat, a :| StepOf(run[i - 1], t, a, run[i]);
      StepInv(run[i - 1], t, a, run[i]);
    }
  }

  lemma ReachableInv(s: State)
    requires Reachable(s)
    ensures Inv(s)
  {
    hide Inv;
    var run :| Run(run) && run[|run| - 1] == s;
    RunInv(run, |run| - 1);
  }

  // ----------------------------------------------------------- main results

  /** Being in the list some notifier still has to signal. */
  ghost predicate IsOwed(s: State, t: nat) {
    exists n :: 0 <= n < |s.pc| && s.pc[n].Wake? && t in s.pc[n].list
  }

  /** A thread that sleeps in commit, or pumps a spurious wake-up, is in the wait set, or is owed a
      signal, or has it already: it is never forgotten, and never waits for two. */
  lemma SleeperNotForgotten(s: State, t: nat)
    requires Reachable(s) && t < |s.pc| && (s.pc[t].Block? || s.pc[t].Pump?)
    ensures t < |s.sem| && (t in s.waitset || IsOwed(s, t) || s.sem[t] == 1)
    ensures s.pc[t].Pump? ==> t !in s.waitset
  {
    ReachableInv(s);
    assert ContextOk(s, t);
  }

  /** In the wait set, owed a signal, or signalled: at most one of the three, so that the semaphore is
      binary, and each signal is matched by exactly one P. */
  lemma OneWakeUp(s: State, t: nat)
    requires Reachable(s) && t < |s.pc|
    ensures t < |s.sem| && s.sem[t] <= 1
    ensures t in s.waitset ==> s.sem[t] == 0 && !IsOwed(s, t)
    ensures IsOwed(s, t) ==> s.sem[t] == 0
  {
    ReachableInv(s);
    assert ContextOk(s, t);
    if IsOwed(s, t) {
      var n :| 0 <= n < |s.pc| && s.pc[n].Wake? && t in s.pc[n].list;
      assert WakerOk(s, n);
    }
  }

  /** ... and no two notifiers owe a signal to the same thread, nor one of them two. */
  lemma OwedOnce(s: State, t: nat, n: nat, m: nat)
    requires Reachable(s) && n < |s.pc| && m < |s.pc| && s.pc[n].Wake? && s.pc[m].Wake?
    requires t in s.pc[n].list && t in s.pc[m].list
    ensures n == m && AllDistinct(s.pc[n].list)
  {
    ReachableInv(s);
    assert WakerOk(s, n) && WakerOk(s, m);
  }

  /** The flag for a spurious wake-up says, while the thread is not waiting, whether a signal is still
      to be pumped. */
  lemma SpuriousExact(s: State, t: nat)
    requires Reachable(s) && t < |s.pc| && s.pc[t].Idle?
    ensures t < |s.spurious| && t < |s.sem|
    ensures s.spurious[t] <==> IsOwed(s, t) || s.sem[t] == 1
    ensures t !in s.waitset
  {
    ReachableInv(s);
    assert ContextOk(s, t);
    if IsOwed(s, t) {
      var n :| 0 <= n < |s.pc| && s.pc[n].Wake? && t in s.pc[n].list;
      assert WakerOk(s, n);
    }
  }

  lemma OwedPlace(s: State, t: nat)
    requires Inv(s) && IsOwed(s, t)
    ensures t < |s.place| && s.place[t].Owed?
  {
    var n :| 0 <= n < |s.pc| && s.pc[n].Wake? && t in s.pc[n].list;
    assert WakerOk(s, n);
  }

  /** The assertion in commit_wait: a thread that has been woken is no longer in the queue; and no other
      signal is due to it. */
  lemma WokenIsOut(s: State, t: nat, s': State)
    requires Reachable(s) && StepOf(s, t, Go, s') && s.pc[t].Block?
    ensures !s.inWaitset[t] && t !in s.waitset
    ensures t < |s'.sem| && s'.sem[t] == 0 && !IsOwed(s', t)
  {
    ReachableInv(s);
    StepInv(s, t, Go, s');
    assert ContextOk(s, t);
    if IsOwed(s', t) {
      OwedPlace(s', t);
    }
  }

  /** While a notifier still has a context on its list, that context's thread does not join the wait
      set again: the links of the node are not touched before it has been signalled. */
  lemma ListedNodeUntouched(s: State, t: nat, n: nat)
    requires Reachable(s) && n < |s.pc| && s.pc[n].Wake? && t in s.pc[n].list
    ensures t < |s.pc| && !s.pc[t].Add? && !s.pc[t].Mark? && t !in s.waitset
    ensures t < |s.inWaitset| && !s.inWaitset[t]
  {
    ReachableInv(s);
    assert WakerOk(s, n);
    assert ContextOk(s, t);
  }

  /** A notification after prepare_wait is not lost: the threads taken are owed a signal, the others
      stay in the wait set; and notify_one takes the first, notify_all takes all, and notify takes
      exactly those chosen. */
  lemma TakenAreOwed(s: State, n: nat, s': State, t: nat)
    requires Reachable(s) && StepOf(s, n, Go, s') && s.pc[n].NotifyTake? && t in s.waitset
    ensures IsOwed(s', t) <==> t !in s'.waitset
    ensures var kind := s.pc[n].kind;
            && (kind.All? ==> IsOwed(s', t))
            && (kind.One? ==> (IsOwed(s', t) <==> t == s.waitset[0]))
            && (kind.Those? ==> (IsOwed(s', t) <==> t in kind.chosen))
  {
    hide Inv, Left, Taken, Access;
    ReachableInv(s);
    StepInv(s, n, Go, s');
    NotifyTakeState(s, n);
    InSet(s, t);
    var taken := Taken(s.waitset, s.pc[n].kind);
    LeftMembers(s.waitset, taken);
    TakenExactly(s.waitset, s.pc[n].kind, t);
    if t in taken {
      assert s'.pc[n] == Wake(taken);
    } else if IsOwed(s', t) {
      var m :| 0 <= m < |s'.pc| && s'.pc[m].Wake? && t in s'.pc[m].list;
      InSet(s', t);
      NotListed(s', t, m);
    }
  }

  lemma NotifyTakeState(s: State, n: nat)
    requires Inv(s) && Enabled(s, n, Go) && s.pc[n].NotifyTake?
    ensures var s', taken := Access(s, n, Go), Taken(s.waitset, s.pc[n].kind);
            AllDistinct(s.waitset) && s'.waitset == Left(s.waitset, taken) && s'.pc == s.pc[n := Wake(taken)]
  {
  }

  lemma InSet(s: State, t: nat)
    requires Inv(s) && t in s.waitset
    ensures t < |s.pc| && t < |s.place| && s.place[t].In? && !s.pc[t].Idle?
  {
    assert t < |s.pc|;
    assert ContextOk(s, t);
  }

  lemma NotListed(s: State, t: nat, m: nat)
    requires Inv(s) && t < |s.place| && s.place[t].In? && m < |s.pc| && s.pc[m].Wake?
    ensures t !in s.pc[m].list
  {
    assert WakerOk(s, m);
  }

  lemma TakenExactly(waitset: seq<nat>, kind: Kind, t: nat)
    requires AllDistinct(waitset) && t in waitset
    ensures kind.All? ==> t in Taken(waitset, kind)
    ensures kind.One? ==> (t in Taken(waitset, kind) <==> t == waitset[0])
    ensures kind.Those? ==> (t in Taken(waitset, kind) <==> t in kind.chosen)
  {
    if kind.Those? {
      ChosenMembers(waitset, kind.chosen);
    }
  }

  lemma NotIn(s: State, x: nat)
    requires Inv(s) && forall u :: 0 <= u < |s.pc| ==> s.pc[u].Idle?
    ensures x !in s.waitset
  {
    if x in s.waitset {
      InSet(s, x);
    }
  }

  lemma NoneIn(s: State)
    requires Inv(s) && forall u :: 0 <= u < |s.pc| ==> s.pc[u].Idle?
    ensures s.waitset == []
  {
    hide Inv;
    if s.waitset != [] {
      NotIn(s, s.waitset[0]);
    }
  }

  // --------------------------------------------------------------- the epoch

  lemma Turn(x: nat)
    ensures (x % WORD + 1) % WORD == (x + 1) % WORD
  {
  }

  /** The epoch counts the notifications, in a word. */
  ghost predicate EpochOk(s: State) {
    && Sizes(s) && s.epoch == s.notified % WORD
    && forall t :: 0 <= t < |s.pc| && s.pc[t].Prepared? ==>
         s.seen[t] == s.seenAt[t] % WORD && s.seenAt[t] <= s.notified
  }

  lemma StepEpoch(s: State, t: nat, a: Act, s': State)
    requires EpochOk(s) && StepOf(s, t, a, s')
    ensures EpochOk(s')
  {
    hide Left, Taken;
    Turn(s.notified);
  }

  lemma {:induction false} RunEpoch(run: seq<State>, i: nat)
    requires Run(run) && i < |run|
    ensures EpochOk(run[i])
  {
    hide StepOf;
    if i > 0 {
      RunEpoch(run, i - 1);
      assert Next(run[i - 1], run[i - 1 + 1]);
      var t: nat, a :| StepOf(run[i - 1], t, a, run[i]);
      StepEpoch(run[i - 1], t, a, run[i]);
    }
  }

  lemma SameWord(x: nat, y: nat)
    requires x <= y
    ensures x % WORD == y % WORD <==> (y - x) % WORD == 0
    ensures y - x < WORD ==> (x % WORD == y % WORD <==> x == y)
  {
    var q := y / WORD - x / WORD;
    assert y - x == q * WORD + (y % WORD - x % WORD);
  }

  /** commit_wait goes to sleep exactly if no notification has come between: none has taken its
      critical section since the thread joined the wait set, or by accident a multiple of 2^32 of
      them have; otherwise it cancels. */
  lemma CommitExact(s: State, t: nat, s': State)
    requires Reachable(s) && StepOf(s, t, Commit, s')
    ensures s'.pc[t] == Block || s'.pc[t] == Suspect
    ensures s.seenAt[t] <= s.notified && (s'.pc[t] == Block <==> (s.notified - s.seenAt[t]) % WORD == 0)
    ensures s.notified - s.seenAt[t] < WORD ==> (s'.pc[t] == Block <==> s.notified == s.seenAt[t])
  {
    var run :| Run(run) && run[|run| - 1] == s;
    RunEpoch(run, |run| - 1);
    CommitStep(s, t, s');
    hide StepOf, Run, Reachable;
    SameWord(s.seenAt[t], s.notified);
  }

  lemma CommitStep(s: State, t: nat, s': State)
    requires StepOf(s, t, Commit, s')
    ensures Sizes(s) && t < |s.pc| == |s'.pc| && s.pc[t].Prepared?
    ensures s'.pc[t] == if s.seen[t] == s.epoch then Block else Suspect
  {
  }

  /** A wait that sleeps returns only when it has been signalled, and a notification only when it has
      found the wait set empty at its first look, or has signalled every context it has taken. */
  lemma ReturnsWhenDone(s: State, t: nat, a: Act, s': State)
    requires StepOf(s, t, a, s') && s'.pc[t].Idle?
    ensures s.pc[t].Block? ==> s.sem[t] > 0 && s'.sem[t] == s.sem[t] - 1
    ensures s.pc[t].NotifyLook? ==> s.waitset == []
    ensures s.pc[t].Wake? ==> s.pc[t].list == []
    ensures !s.pc[t].Pump? && !s.pc[t].Mark? && !s.pc[t].Add? && !s.pc[t].NotifyTake? && !s.pc[t].Idle?
  {
  }

  /** When nobody is waiting or notifying, nothing is left over but the signals to be pumped. */
  lemma Quiescent(s: State, t: nat)
    requires Reachable(s) && t < |s.pc| && forall u :: 0 <= u < |s.pc| ==> s.pc[u].Idle?
    ensures s.waitset == []
    ensures t < |s.spurious| && t < |s.sem| && s.sem[t] == if s.spurious[t] then 1 else 0
  {
    ReachableInv(s);
    assert ContextOk(s, t);
    NoneIn(s);
  }
}
