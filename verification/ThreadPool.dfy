/** The thread pool around the work-stealing deques: workers that find nothing to run put themselves
    on a list of waiters and sleep on an event of their own; scheduling a task wakes one of them.

    Threads interleave one access at a time, the accesses under the pool's mutex included; threads
    below `n` are the workers, the others schedule from outside.  Of the deques and of the public
    queue only the number of tasks matters here.  A task that waits for another one runs the worker
    loop again inside itself: `stack` has one frame for each loop a worker is in.  The model runs up
    to the start of a shutdown. */
module ThreadPool {
  import opened Counting

  /** Whether the loop waits for a task, and has added its continuation to it; whether that task has
      finished, and has run the continuation, which signals the worker's event. */
  datatype Frame = Frame(waits: bool, added: bool, done: bool, told: bool)

  const Base := Frame(false, false, false, false)

  const Waiting := Frame(true, false, false, false)

  /** What an event held when its worker woke up, and whether a stale bit was among that. */
  datatype Wake = Wake(finished: bool, available: bool, stale: bool)

  datatype Pc =
    | Task                 // running a task, or about to enter the worker loop
    | Top                  // thread_task_loop: has the awaited task finished?
    | PopLocal             //   pop the own deque
    | Steal                //   steal from the others
    | Lock                 //   lock the mutex
    | Public               //   pop the public queue, or get ready to sleep
    | Register             //   append to the waiters
    | Unlock               //   unlock
    | Sleep                //   wait for the own event
    | Relock               //   lock again
    | Remove               //   take ourselves off the waiters, and unlock
    | PushLocal            // schedule, from a worker: push to the own deque
    | Peek                 //   any waiters?  (outside the mutex)
    | SignalLock           //   lock the mutex
    | Signal               //   signal the event of the last waiter, if any
    | Drop                 //   take it off the list, and unlock
    | Outside              // not a worker
    | PublicLock           // schedule, from outside: lock the mutex
    | PushPublic           //   push to the public queue

  /** Tasks that schedule has been called with, those some worker has got hold of, and those it has run
      to the end. */
  datatype Tally = Tally(submitted: nat, taken: nat, ended: nat)

  datatype State = State(
    n: nat,
    pc: seq<Pc>,
    stack: seq<seq<Frame>>,
    deque: seq<nat>,
    public: nat,
    waiters: seq<nat>,
    finished: seq<bool>,     // the bits of event_mask
    available: seq<bool>,
    lock: int,               // the thread that holds the mutex, or -1
    stray: seq<nat>,         // continuations yet to run whose wait has returned
    stale: seq<bool>,        // history: task_finished was set for a wait that has returned
    woke: seq<Wake>,         // history: the worker's last wake-up
    tally: Tally)            // history

  predicate Sizes(s: State) {
    && 0 < s.n <= |s.pc| && |s.stack| == |s.deque| == |s.finished| == |s.available| == s.n
    && |s.stray| == |s.stale| == |s.woke| == s.n
  }

  ghost predicate Init(s: State) {
    && Sizes(s) && s.tally == Tally(0, 0, 0) && s.public == 0 && s.waiters == [] && s.lock == -1
    && (forall t :: 0 <= t < |s.pc| ==> s.pc[t] == if t < s.n then Top else Outside)
    && (forall w :: 0 <= w < s.n ==> s.stack[w] == [Base] && s.deque[w] == 0 && !s.finished[w] && !s.available[w])
    && (forall w :: 0 <= w < s.n ==> s.stray[w] == 0 && !s.stale[w])
  }

  // ------------------------------------------------------------------ steps

  /** A worker takes itself off the list: swapped with the last, if it is still there. */
  function Without(waiters: seq<nat>, w: nat): seq<nat> {
    if w in waiters then WithoutAt(waiters, IndexOf(waiters, w)) else waiters
  }

  function IndexOf(waiters: seq<nat>, w: nat): (i: nat)
    requires w in waiters
    ensures i < |waiters| && waiters[i] == w && w !in waiters[..i]
  {
    if waiters[0] == w then 0
    else
      assert waiters == [waiters[0]] + waiters[1..];
      1 + IndexOf(waiters[1..], w)
  }

  function WithoutAt(waiters: seq<nat>, i: nat): seq<nat>
    requires i < |waiters|
  {
    waiters[i := waiters[|waiters| - 1]][..|waiters| - 1]
  }

  /** The loop that does so in the waiters array. */
  method RemoveWaiter(waiters: array<nat>, numWaiters: nat, w: nat) returns (left: nat)
    requires numWaiters <= waiters.Length
    modifies waiters
    ensures left <= numWaiters && waiters[..left] == Without(old(waiters[..numWaiters]), w)
    ensures forall i :: numWaiters <= i < waiters.Length ==> waiters[i] == old(waiters[i])
  {
    ghost var list := waiters[..numWaiters];
    left := numWaiters;
    var i := 0;
    while i < numWaiters
      invariant i <= numWaiters && left == numWaiters && waiters[..] == old(waiters[..])
      invariant w !in list[..i]
    {
      if waiters[i] == w {
        FirstIndex(list, w, i);
        if i != numWaiters - 1 {
          waiters[i], waiters[numWaiters - 1] := waiters[numWaiters - 1], waiters[i];
        }
        left := numWaiters - 1;
        assert waiters[..left] == WithoutAt(list, i);
        return;
      }
      assert list[..i + 1] == list[..i] + [list[i]];
      i := i + 1;
    }
    assert list[..i] == list;
  }

  lemma FirstIndex(list: seq<nat>, w: nat, i: nat)
    requires i < |list| && list[i] == w && w !in list[..i]
    ensures w in list && IndexOf(list, w) == i
  {
    var k := IndexOf(list, w);
  }

  /** What is left to the tasks' choice, or to the shuffle of the victims. */
  datatype Act =
    | Go
    | Schedule              // the task calls schedule
    | Nest                  // the task waits for another one
    | End                   // the task ends
    | From(victim: nat)     // steal finds something there

  /** Which choices there are, and what a step takes for granted. */
  predicate Enabled(s: State, t: nat, a: Act) {
    && Sizes(s) && t < |s.pc|
    && match s.pc[t]
       case Task => a.Schedule? || a.Nest? || a.End?
       case Top => t < s.n && |s.stack[t]| > 0 && a == Go
       case PopLocal => t < s.n && a == Go
       case Steal => t < s.n && (a == Go || (a.From? && a.victim < s.n && a.victim != t && s.deque[a.victim] > 0))
       case Lock => t < s.n && s.lock == -1 && a == Go
       case Public => t < s.n && |s.stack[t]| > 0 && a == Go
       case Sleep => t < s.n && (s.finished[t] || s.available[t]) && a == Go
       case Relock => s.lock == -1 && a == Go
       case Remove => t < s.n && |s.stack[t]| > 0 && a == Go
       case PushLocal => t < s.n && a == Go
       case SignalLock => s.lock == -1 && a == Go
       case PublicLock => s.lock == -1 && a == Go
       case Signal => a == Go && (s.waiters != [] ==> s.waiters[|s.waiters| - 1] < s.n)
       case Drop => a == Go && s.waiters != []
       case Outside => a.Schedule?
       case _ => a == Go
  }

  /** The worker loop that worker t is in. */
  function Innermost(s: State, t: nat): Frame
    requires t < |s.stack| && |s.stack[t]| > 0
  {
    s.stack[t][|s.stack[t]| - 1]
  }

  /** A wait returns.  Its continuation stays with the task, and what it has signalled by now is no
      concern of the next wait. */
  function Return(s: State, t: nat): State
    requires Sizes(s) && t < s.n && |s.stack[t]| > 0
  {
    var f := Innermost(s, t);
    s.(stack := s.stack[t := s.stack[t][..|s.stack[t]| - 1]],
       stray := if f.added && !f.told then s.stray[t := s.stray[t] + 1] else s.stray,
       stale := s.stale[t := s.finished[t]])
  }

  function Submits(s: State): Tally {
    s.tally.(submitted := s.tally.submitted + 1)
  }

  function Takes(s: State): Tally {
    s.tally.(taken := s.tally.taken + 1)
  }

  function Ends(s: State): Tally {
    s.tally.(ended := s.tally.ended + 1)
  }

  /** Where a thread is after schedule. */
  function Home(s: State, t: nat): Pc {
    if t < s.n then Task else Outside
  }

  /** The state after thread t's next access. */
  function Access(s: State, t: nat, a: Act): (s': State)
    requires Enabled(s, t, a)
    ensures Sizes(s')
  {
    match s.pc[t]
    case Task =>
      if a.Schedule? && t < s.n then s.(pc := s.pc[t := PushLocal], tally := Submits(s))
      else if a.Nest? && t < s.n then s.(pc := s.pc[t := Top], stack := s.stack[t := s.stack[t] + [Waiting]])
      else if t < s.n then s.(pc := s.pc[t := Top], tally := Ends(s))
      else s.(pc := s.pc[t := Outside])
    case Top =>
      var f := Innermost(s, t);
      var ready := f.waits && (if f.added then s.finished[t] else f.done);
      var s1 := if f.waits && f.added then s.(finished := s.finished[t := false], stale := s.stale[t := false]) else s;
      if ready then Return(s1, t).(pc := s.pc[t := Task]) else s1.(pc := s.pc[t := PopLocal])
    case PopLocal =>
      if s.deque[t] > 0
      then s.(pc := s.pc[t := Task], deque := s.deque[t := s.deque[t] - 1], tally := Takes(s))
      else s.(pc := s.pc[t := Steal])
    case Steal =>
      if a.From?
      then s.(pc := s.pc[t := Task], deque := s.deque[a.victim := s.deque[a.victim] - 1], tally := Takes(s))
      else s.(pc := s.pc[t := Lock])
    case Lock =>
      s.(pc := s.pc[t := Public], lock := t)
    case Public =>
      if s.public > 0
      then s.(pc := s.pc[t := Task], public := s.public - 1, lock := -1, tally := Takes(s))
      else
        var top := |s.stack[t]| - 1;
        s.(pc := s.pc[t := Register],
           stack := s.stack[t := s.stack[t][top := s.stack[t][top].(added := s.stack[t][top].waits)]])
    case Register =>
      s.(pc := s.pc[t := Unlock], waiters := s.waiters + [t])
    case Unlock =>
      s.(pc := s.pc[t := Sleep], lock := -1)
    case Sleep =>
      s.(pc := s.pc[t := Relock], finished := s.finished[t := false], available := s.available[t := false],
         stale := s.stale[t := false], woke := s.woke[t := Wake(s.finished[t], s.available[t], s.stale[t])])
    case Relock =>
      s.(pc := s.pc[t := Remove], lock := t)
    case Remove =>
      // the result of the wait reads as task_finished, whatever the event was
      var s1 := s.(waiters := Without(s.waiters, t), lock := -1);
      if Innermost(s, t).waits then Return(s1, t).(pc := s.pc[t := Task]) else s1.(pc := s.pc[t := Steal])
    case PushLocal =>
      s.(pc := s.pc[t := Peek], deque := s.deque[t := s.deque[t] + 1])
    case Peek =>
      s.(pc := s.pc[t := if s.waiters == [] then Home(s, t) else SignalLock])
    case SignalLock =>
      s.(pc := s.pc[t := Signal], lock := t)
    case Signal =>
      if s.waiters == []
      then s.(pc := s.pc[t := Home(s, t)], lock := -1)
      else s.(pc := s.pc[t := Drop], available := s.available[s.waiters[|s.waiters| - 1] := true])
    case Drop =>
      s.(pc := s.pc[t := Home(s, t)], waiters := s.waiters[..|s.waiters| - 1], lock := -1)
    case Outside =>
      s.(pc := s.pc[t := PublicLock], tally := Submits(s))
    case PublicLock =>
      s.(pc := s.pc[t := PushPublic], lock := t)
    case PushPublic =>
      s.(pc := s.pc[t := Signal], public := s.public + 1)
  }

  function SetFrame(s: State, w: nat, i: nat, f: Frame): State
    requires w < |s.stack| && i < |s.stack[w]|
  {
    s.(stack := s.stack[w := s.stack[w][i := f]])
  }

  /** At any time a task that some loop waits for may finish; */
  ghost predicate Finishes(s: State, w: nat, i: nat, s': State) {
    && Sizes(s) && w < s.n && i < |s.stack[w]| && s.stack[w][i].waits
    && s' == SetFrame(s, w, i, s.stack[w][i].(done := true))
  }

  /** after that it runs the continuation, if one has been added; */
  ghost predicate Tells(s: State, w: nat, i: nat, s': State) {
    && Sizes(s) && w < s.n && i < |s.stack[w]|
    && var f := s.stack[w][i];
      && f.added && f.done && !f.told
      && s' == SetFrame(s, w, i, f.(told := true)).(finished := s.finished[w := true])
  }

  /** and it does so even when the wait has returned long ago. */
  ghost predicate StrayTells(s: State, w: nat, s': State) {
    && Sizes(s) && w < s.n && s.stray[w] > 0
    && s' == s.(finished := s.finished[w := true], stale := s.stale[w := true], stray := s.stray[w := s.stray[w] - 1])
  }

  ghost predicate StepOf(s: State, t: nat, a: Act, s': State) {
    Enabled(s, t, a) && s' == Access(s, t, a)
  }

  ghost predicate Next(s: State, s': State) {
    || (exists t: nat, a :: StepOf(s, t, a, s'))
    || (exists w: nat, i: nat :: Finishes(s, w, i, s') || Tells(s, w, i, s'))
    || (exists w: nat :: StrayTells(s, w, s'))
  }

  /** A run: any interleaving, with any tasks. */
  ghost predicate Run(run: seq<State>) {
    && |run| > 0 && Init(run[0])
    && (forall i :: 0 <= i < |run| - 1 ==> Next(run[i], run[i + 1]))
  }

  ghost predicate Reachable(s: State) {
    exists run: seq<State> :: Run(run) && run[|run| - 1] == s
  }

  // -------------------------------------------------------------- invariant

  predicate Holds(p: Pc) {
    p.Public? || p.Register? || p.Unlock? || p.Remove? || p.Signal? || p.Drop? || p.PushPublic?
  }

  /** The loop has found the own deque empty, and has not run anything since. */
  predicate Hungry(p: Pc) {
    p.Steal? || p.Lock? || p.Public? || p.Register? || p.Unlock? || p.Sleep? || p.Relock? || p.Remove?
  }

  /** Where a thread that is not a worker can be. */
  predicate IsCaller(p: Pc) {
    p.Outside? || p.PublicLock? || p.PushPublic? || p.Signal? || p.Drop?
  }

  /** Places a worker on the list of waiters can be at. */
  predicate MayWait(p: Pc) {
    p.Unlock? || p.Sleep? || p.Relock? || p.Remove?
  }

  /** Asleep, with nothing to wake it. */
  predicate Asleep(s: State, w: nat)
    requires w < |s.pc| && w < |s.finished| && w < |s.available|
  {
    s.pc[w].Sleep? && !s.finished[w] && !s.available[w]
  }

  /** A wait has added its continuation and has not returned. */
  predicate Bedded(p: Pc) {
    p.Register? || MayWait(p)
  }

  predicate FrameOk(f: Frame) {
    (f.told ==> f.added && f.done) && (f.added || f.done ==> f.waits)
  }

  /** Only the innermost loop can have added a continuation, since any wake-up makes it return; and
      unless the bit is stale, the event says whether that continuation has run. */
  ghost predicate FramesOk(p: Pc, stack: seq<Frame>, finished: bool, stale: bool, woke: Wake) {
    && |stack| > 0 && !stack[0].waits
    && (forall i :: 0 <= i < |stack| ==> FrameOk(stack[i]) && (i < |stack| - 1 ==> !stack[i].added))
    && var f := stack[|stack| - 1];
      && (f.added <==> f.waits && Bedded(p))
      && (stale ==> finished)
      && (finished && !stale ==> f.told)
      && (f.told && !p.Relock? && !p.Remove? ==> finished)
      && (f.waits && (p.Relock? || p.Remove?) && woke.finished && !woke.stale ==> f.done)
  }

  ghost predicate WorkerOk(s: State, w: nat)
    requires Sizes(s) && w < s.n
  {
    var p := s.pc[w];
    && !p.Outside? && !p.PublicLock? && !p.PushPublic?
    && FramesOk(p, s.stack[w], s.finished[w], s.stale[w], s.woke[w])
    && (w in s.waiters ==> MayWait(p))
    && (p.Unlock? || Asleep(s, w) ==> w in s.waiters)
    && (Hungry(p) ==> s.deque[w] == 0)
    && (p.Register? || p.Unlock? ==> s.public == 0)
  }

  ghost predicate LockOk(s: State) {
    && -1 <= s.lock < |s.pc|
    && (forall t :: 0 <= t < |s.pc| ==> (Holds(s.pc[t]) <==> s.lock == t))
  }

  /** The last waiter has been signalled and is about to be taken off the list. */
  ghost predicate DropOk(s: State)
    requires Sizes(s)
  {
    forall t :: 0 <= t < |s.pc| && s.pc[t].Drop? ==>
      && s.waiters != []
      && var l := s.waiters[|s.waiters| - 1];
        l < s.n && (s.pc[l].Sleep? ==> s.available[l])
  }

  ghost predicate WaitersOk(s: State) {
    AllDistinct(s.waiters) && forall i :: 0 <= i < |s.waiters| ==> s.waiters[i] < s.n
  }

  ghost predicate SomeoneAwake(s: State)
    requires Sizes(s)
  {
    exists w :: 0 <= w < s.n && !Asleep(s, w)
  }

  /** A task in the public queue has a worker to find it, or a thread about to wake one. */
  ghost predicate PublicOk(s: State)
    requires Sizes(s)
  {
    s.public > 0 ==> SomeoneAwake(s) || (exists t :: 0 <= t < |s.pc| && s.pc[t].Signal?)
  }

  ghost predicate Inv(s: State) {
    && Sizes(s) && WaitersOk(s) && LockOk(s) && DropOk(s) && PublicOk(s)
    && (forall t :: s.n <= t < |s.pc| ==> IsCaller(s.pc[t]))
    && (forall w :: 0 <= w < s.n ==> WorkerOk(s, w))
  }

  lemma InitInv(s: State)
    requires Init(s)
    ensures Inv(s)
  {
  }

  lemma WithoutFacts(waiters: seq<nat>, w: nat)
    requires AllDistinct(waiters)
    ensures AllDistinct(Without(waiters, w))
    ensures forall x :: x in Without(waiters, w) <==> x in waiters && x != w
  {
    if w in waiters {
      var i, n := IndexOf(waiters, w), |waiters| - 1;
      var rest := WithoutAt(waiters, i);
      forall x ensures x in rest <==> x in waiters && x != w {
        if x in waiters && x != w {
          var j :| 0 <= j < |waiters| && waiters[j] == x;
          assert rest[if j == n then i else j] == x;
        }
      }
    }
  }

  /** After a worker's own step that worker is awake, unless it has just gone to sleep; and then the
      public queue was empty.  A thread outside wakes one before it leaves. */
  lemma PublicKept(s: State, t: nat, a: Act)
    requires Inv(s) && Enabled(s, t, a)
    ensures PublicOk(Access(s, t, a))
  {
    hide WaitersOk, LockOk, DropOk;
    var s' := Access(s, t, a);
    if t < s.n {
      assert WorkerOk(s, t);
      assert s.pc[t].Unlock? || !Asleep(s', t);
    } else {
      OutsideKeepsPublic(s, t, a);
    }
  }

  lemma OutsideKeepsPublic(s: State, t: nat, a: Act)
    requires Inv(s) && Enabled(s, t, a) && t >= s.n
    ensures PublicOk(Access(s, t, a))
  {
    hide WaitersOk, LockOk, DropOk;
    var s' := Access(s, t, a);
    if s.pc[t].PushPublic? {
      assert s'.pc[t].Signal?;
    } else if s.pc[t].Signal? {
      assert WorkerOk(s, 0);
      assert !Asleep(s', if s.waiters == [] then 0 else s.waiters[|s.waiters| - 1]);
    } else if s.public > 0 && !SomeoneAwake(s) {
      var u :| 0 <= u < |s.pc| && s.pc[u].Signal?;
      assert s'.pc[u].Signal?;
    } else if SomeoneAwake(s) {
      var w :| 0 <= w < s.n && !Asleep(s, w);
      assert !Asleep(s', w);
    }
  }

  lemma FramesSame(p: Pc, p': Pc, stack: seq<Frame>, finished: bool, stale: bool, woke: Wake)
    requires FramesOk(p, stack, finished, stale, woke) && !Bedded(p) && !Bedded(p')
    ensures FramesOk(p', stack, finished, stale, woke)
  {
  }

  lemma TaskInv(s: State, t: nat, a: Act)
    requires Inv(s) && Enabled(s, t, a)
    requires s.pc[t].Task?
    ensures Inv(Access(s, t, a))
  {
    hide PublicOk, AllDistinct;
    var s' := Access(s, t, a);
    assert t < s.n ==> WorkerOk(s, t);
    forall u | 0 <= u < s.n ensures WorkerOk(s', u) {
      assert WorkerOk(s, u);
    }
    PublicKept(s, t, a);
  }

  lemma TopInv(s: State, t: nat, a: Act)
    requires Inv(s) && Enabled(s, t, a)
    requires s.pc[t].Top?
    ensures Inv(Access(s, t, a))
  {
    hide PublicOk, AllDistinct;
    var s' := Access(s, t, a);
    assert t < s.n ==> WorkerOk(s, t);
    forall u | 0 <= u < s.n ensures WorkerOk(s', u) {
      assert WorkerOk(s, u);
    }
    PublicKept(s, t, a);
  }

  lemma LookingInv(s: State, t: nat, a: Act)
    requires Inv(s) && Enabled(s, t, a)
    requires s.pc[t].PopLocal? || s.pc[t].Steal?
    ensures Inv(Access(s, t, a))
  {
    hide PublicOk, AllDistinct, FramesOk;
    var s' := Access(s, t, a);
    assert t < s.n ==> WorkerOk(s, t);
    if t < s.n {
      FramesSame(s.pc[t], s'.pc[t], s.stack[t], s.finished[t], s.stale[t], s.woke[t]);
    }
    forall u | 0 <= u < s.n ensures WorkerOk(s', u) {
      assert WorkerOk(s, u);
    }
    PublicKept(s, t, a);
  }

  lemma LockInv(s: State, t: nat, a: Act)
    requires Inv(s) && Enabled(s, t, a)
    requires s.pc[t].Lock?
    ensures Inv(Access(s, t, a))
  {
    hide PublicOk, AllDistinct, FramesOk;
    var s' := Access(s, t, a);
    assert t < s.n ==> WorkerOk(s, t);
    if t < s.n {
      FramesSame(s.pc[t], s'.pc[t], s.stack[t], s.finished[t], s.stale[t], s.woke[t]);
    }
    forall u | 0 <= u < s.n ensures WorkerOk(s', u) {
      assert WorkerOk(s, u);
    }
    PublicKept(s, t, a);
  }

  lemma SchedulingInv(s: State, t: nat, a: Act)
    requires Inv(s) && Enabled(s, t, a)
    requires s.pc[t].PushLocal? || s.pc[t].Peek? || s.pc[t].SignalLock?
    ensures Inv(Access(s, t, a))
  {
    hide PublicOk, AllDistinct, FramesOk;
    var s' := Access(s, t, a);
    assert t < s.n ==> WorkerOk(s, t);
    if t < s.n {
      FramesSame(s.pc[t], s'.pc[t], s.stack[t], s.finished[t], s.stale[t], s.woke[t]);
    }
    forall u | 0 <= u < s.n ensures WorkerOk(s', u) {
      assert WorkerOk(s, u);
    }
    PublicKept(s, t, a);
  }

  lemma SignalInv(s: State, t: nat, a: Act)
    requires Inv(s) && Enabled(s, t, a)
    requires s.pc[t].Signal?
    ensures Inv(Access(s, t, a))
  {
    hide PublicOk, AllDistinct, FramesOk;
    var s' := Access(s, t, a);
    assert t < s.n ==> WorkerOk(s, t);
    if t < s.n {
      FramesSame(s.pc[t], s'.pc[t], s.stack[t], s.finished[t], s.stale[t], s.woke[t]);
    }
    forall u | 0 <= u < s.n ensures WorkerOk(s', u) {
      assert WorkerOk(s, u);
    }
    PublicKept(s, t, a);
  }

  lemma OutsideInv(s: State, t: nat, a: Act)
    requires Inv(s) && Enabled(s, t, a)
    requires s.pc[t].Outside? || s.pc[t].PublicLock? || s.pc[t].PushPublic?
    ensures Inv(Access(s, t, a))
  {
    hide PublicOk, AllDistinct, FramesOk;
    var s' := Access(s, t, a);
    assert t < s.n ==> WorkerOk(s, t);
    forall u | 0 <= u < s.n ensures WorkerOk(s', u) {
      assert WorkerOk(s, u);
    }
    PublicKept(s, t, a);
  }

  lemma PublicInv(s: State, t: nat, a: Act)
    requires Inv(s) && Enabled(s, t, a)
    requires s.pc[t].Public?
    ensures Inv(Access(s, t, a))
  {
    hide PublicOk, AllDistinct;
    var s' := Access(s, t, a);
    assert t < s.n ==> WorkerOk(s, t);
    forall u | 0 <= u < s.n ensures WorkerOk(s', u) {
      assert WorkerOk(s, u);
    }
    PublicKept(s, t, a);
  }

  lemma SleepingInv(s: State, t: nat, a: Act)
    requires Inv(s) && Enabled(s, t, a)
    requires s.pc[t].Unlock? || s.pc[t].Sleep? || s.pc[t].Relock?
    ensures Inv(Access(s, t, a))
  {
    hide PublicOk, AllDistinct;
    var s' := Access(s, t, a);
    assert t < s.n ==> WorkerOk(s, t);
    forall u | 0 <= u < s.n ensures WorkerOk(s', u) {
      assert WorkerOk(s, u);
    }
    PublicKept(s, t, a);
  }

  lemma RegisterInv(s: State, t: nat, a: Act)
    requires Inv(s) && Enabled(s, t, a)
    requires s.pc[t].Register?
    ensures Inv(Access(s, t, a))
  {
    hide PublicOk;
    var s' := Access(s, t, a);
    assert t < s.n ==> WorkerOk(s, t);
    forall u | 0 <= u < s.n ensures WorkerOk(s', u) {
      assert WorkerOk(s, u);
    }
    PublicKept(s, t, a);
  }

  lemma RemoveInv(s: State, t: nat, a: Act)
    requires Inv(s) && Enabled(s, t, a)
    requires s.pc[t].Remove?
    ensures Inv(Access(s, t, a))
  {
    hide PublicOk, AllDistinct, Without;
    var s' := Access(s, t, a);
    WithoutFacts(s.waiters, t);
    assert forall i :: 0 <= i < |s'.waiters| ==> s'.waiters[i] in s'.waiters;
    assert t < s.n ==> WorkerOk(s, t);
    forall u | 0 <= u < s.n ensures WorkerOk(s', u) {
      assert WorkerOk(s, u);
    }
    PublicKept(s, t, a);
  }

  lemma ButLast(xs: seq<nat>)
    requires |xs| > 0
    ensures forall x :: x in xs && x != xs[|xs| - 1] ==> x in xs[..|xs| - 1]
  {
  }

  lemma DropInv(s: State, t: nat, a: Act)
    requires Inv(s) && Enabled(s, t, a)
    requires s.pc[t].Drop?
    ensures Inv(Access(s, t, a))
  {
    hide PublicOk, FramesOk;
    var s' := Access(s, t, a);
    assert t < s.n ==> WorkerOk(s, t);
    ButLast(s.waiters);
    if t < s.n {
      FramesSame(s.pc[t], s'.pc[t], s.stack[t], s.finished[t], s.stale[t], s.woke[t]);
    }
    forall u | 0 <= u < s.n ensures WorkerOk(s', u) {
      assert WorkerOk(s, u);
    }
    PublicKept(s, t, a);
  }

  /** Whatever changes only who is awake keeps someone awake. */
  lemma StillAwake(s: State, s': State)
    requires Sizes(s) && Sizes(s') && PublicOk(s) && s'.n == s.n && s'.pc == s.pc && s'.public == s.public
    requires s'.available == s.available && forall w :: 0 <= w < s.n && s.finished[w] ==> s'.finished[w]
    ensures PublicOk(s')
  {
    if SomeoneAwake(s) {
      var u :| 0 <= u < s.n && !Asleep(s, u);
      assert !Asleep(s', u);
    }
  }

  /** The steps of the tasks that are waited for. */
  lemma TaskStepInv(s: State, w: nat, i: nat, s': State)
    requires Inv(s) && (Finishes(s, w, i, s') || Tells(s, w, i, s') || StrayTells(s, w, s'))
    ensures Inv(s')
  {
    hide AllDistinct, PublicOk;
    assert WorkerOk(s, w);
    forall u | 0 <= u < s.n ensures WorkerOk(s', u) {
      assert WorkerOk(s, u);
    }
    StillAwake(s, s');
  }

  lemma StepInv(s: State, t: nat, a: Act, s': State)
    requires Inv(s) && StepOf(s, t, a, s')
    ensures Inv(s')
  {
    hide Inv, Access;
    match s.pc[t] {
      case Task => TaskInv(s, t, a);
      case Top => TopInv(s, t, a);
      case PopLocal => LookingInv(s, t, a);
      case Steal => LookingInv(s, t, a);
      case Lock => LockInv(s, t, a);
      case Public => PublicInv(s, t, a);
      case Register => RegisterInv(s, t, a);
      case Unlock => SleepingInv(s, t, a);
      case Sleep => SleepingInv(s, t, a);
      case Relock => SleepingInv(s, t, a);
      case Remove => RemoveInv(s, t, a);
      case Drop => DropInv(s, t, a);
      case PushLocal => SchedulingInv(s, t, a);
      case Peek => SchedulingInv(s, t, a);
      case SignalLock => SchedulingInv(s, t, a);
      case Signal => SignalInv(s, t, a);
      case _ => OutsideInv(s, t, a);
    }
  }

  lemma NextInv(s: State, s': State)
    requires Inv(s) && Next(s, s')
    ensures Inv(s')
  {
    hide Inv, StepOf, Finishes, Tells, StrayTells;
    if t: nat, a :| StepOf(s, t, a, s') {
      StepInv(s, t, a, s');
    } else if w: nat, i: nat :| Finishes(s, w, i, s') || Tells(s, w, i, s') {
      TaskStepInv(s, w, i, s');
    } else {
      var w: nat :| StrayTells(s, w, s');
      TaskStepInv(s, w, 0, s');
    }
  }

  lemma {:induction false} RunInv(run: seq<State>, i: nat)
    requires Run(run) && i < |run|
    ensures Inv(run[i])
  {
    hide Inv, Next;
    if i == 0 {
      InitInv(run[0]);
    } else {
      RunInv(run, i - 1);
      NextInv(run[i - 1], run[i]);
    }
  }

  lemma ReachableInv(s: State)
    requires Reachable(s)
    ensures Inv(s)
  {
    hide Inv;
    var run :| Run(run) && run[|run| - 1] == s;
    RunInv(run, |run| - 1);
  }

  // ------------------------------------------------------ counting the tasks

  function Queued(d: nat): int {
    d
  }

  /** A task that schedule was called with and that is in no queue yet. */
  function InHand(p: Pc): int {
    if p.PushLocal? || p.PublicLock? || p.PushPublic? then 1 else 0
  }

  /** A worker that runs a task, be it in a call of schedule. */
  function Runs(p: Pc): int {
    if p.Task? || p.PushLocal? || p.Peek? || p.SignalLock? || p.Signal? || p.Drop? then 1 else 0
  }

  /** Tasks that wait for another: one under each inner loop. */
  function Waits(stack: seq<Frame>): int {
    |stack| - 1
  }

  ghost predicate Balanced(s: State) {
    && Sizes(s)
    && s.tally.submitted == s.tally.taken + s.public + Total(s.deque, Queued) + Total(s.pc, InHand)
    && s.tally.taken == s.tally.ended + Total(s.stack, Waits) + Total(s.pc[..s.n], Runs)
  }

  lemma {:induction false} AllZero<A>(xs: seq<A>, weight: A -> int)
    requires forall i :: 0 <= i < |xs| ==> weight(xs[i]) == 0
    ensures Total(xs, weight) == 0
  {
    TotalZero(xs, weight);
  }

  lemma InitBalanced(s: State)
    requires Init(s)
    ensures Balanced(s)
  {
    AllZero(s.deque, Queued);
    AllZero(s.pc, InHand);
    AllZero(s.stack, Waits);
    AllZero(s.pc[..s.n], Runs);
  }

  /** How the sums change when thread t moves, its stack changes, and one deque does. */
  lemma SumsAfter(s: State, t: nat, v: nat, s': State)
    requires Sizes(s) && t < |s.pc| == |s'.pc| && s'.n == s.n && s'.pc == s.pc[t := s'.pc[t]] && v < s.n
    requires |s'.stack| == |s'.deque| == s.n && s'.deque == s.deque[v := s'.deque[v]]
    requires s'.stack == if t < s.n then s.stack[t := s'.stack[t]] else s.stack
    ensures Total(s'.deque, Queued) == Total(s.deque, Queued) - s.deque[v] + s'.deque[v]
    ensures Total(s'.pc, InHand) == Total(s.pc, InHand) - InHand(s.pc[t]) + InHand(s'.pc[t])
    ensures Total(s'.stack, Waits) == Total(s.stack, Waits) + if t < s.n then |s'.stack[t]| - |s.stack[t]| else 0
    ensures Total(s'.pc[..s.n], Runs) ==
            Total(s.pc[..s.n], Runs) + if t < s.n then Runs(s'.pc[t]) - Runs(s.pc[t]) else 0
  {
    hide InHand, Runs;
    TotalUpdate(s.deque, v, s'.deque[v], Queued);
    TotalUpdate(s.pc, t, s'.pc[t], InHand);
    if t < s.n {
      TotalUpdate(s.stack, t, s'.stack[t], Waits);
      TotalUpdate(s.pc[..s.n], t, s'.pc[t], Runs);
      assert s'.pc[..s.n] == s.pc[..s.n][t := s'.pc[t]];
    } else {
      assert s'.pc[..s.n] == s.pc[..s.n];
    }
  }

  /** What one access does to the numbers that are counted; v is the deque it may change. */
  ghost predicate Tallied(s: State, t: nat, v: nat, s': State)
    requires t < |s.pc| && v < s.n && Sizes(s)
  {
    && |s'.pc| == |s.pc| && s'.n == s.n && s'.pc == s.pc[t := s'.pc[t]] && Sizes(s')
    && s'.deque == s.deque[v := s'.deque[v]]
    && s'.stack == (if t < s.n then s.stack[t := s'.stack[t]] else s.stack)
    && s'.tally.submitted - s.tally.submitted ==
       s'.tally.taken - s.tally.taken + s'.public - s.public + s'.deque[v] - s.deque[v]
       + InHand(s'.pc[t]) - InHand(s.pc[t])
    && s'.tally.taken - s.tally.taken == s'.tally.ended - s.tally.ended
       + if t < s.n then |s'.stack[t]| - |s.stack[t]| + Runs(s'.pc[t]) - Runs(s.pc[t]) else 0
  }

  function Victim(s: State, t: nat, a: Act): nat {
    if a.From? then a.victim else if t < s.n then t else 0
  }

  lemma LoopTallied(s: State, t: nat, a: Act)
    requires Enabled(s, t, a) && (s.pc[t].Task? || s.pc[t].Top? || s.pc[t].Remove?)
    ensures Victim(s, t, a) < s.n && Tallied(s, t, Victim(s, t, a), Access(s, t, a))
  {
    hide Without;
  }

  lemma TakeTallied(s: State, t: nat, a: Act)
    requires Enabled(s, t, a) && (s.pc[t].PopLocal? || s.pc[t].Steal? || s.pc[t].Public?)
    ensures Victim(s, t, a) < s.n && Tallied(s, t, Victim(s, t, a), Access(s, t, a))
  {
  }

  lemma SleepTallied(s: State, t: nat, a: Act)
    requires Enabled(s, t, a)
    requires s.pc[t].Lock? || s.pc[t].Register? || s.pc[t].Unlock? || s.pc[t].Sleep? || s.pc[t].Relock?
    ensures Victim(s, t, a) < s.n && Tallied(s, t, Victim(s, t, a), Access(s, t, a))
  {
  }

  lemma ScheduleTallied(s: State, t: nat, a: Act)
    requires Enabled(s, t, a) && (t < s.n ==> !s.pc[t].Outside? && !s.pc[t].PublicLock? && !s.pc[t].PushPublic?)
    requires s.pc[t].PushLocal? || s.pc[t].Peek? || s.pc[t].SignalLock? || s.pc[t].Signal? || s.pc[t].Drop?
             || s.pc[t].Outside? || s.pc[t].PublicLock? || s.pc[t].PushPublic?
    ensures Victim(s, t, a) < s.n && Tallied(s, t, Victim(s, t, a), Access(s, t, a))
  {
  }

  lemma AccessTallied(s: State, t: nat, a: Act)
    requires Inv(s) && Enabled(s, t, a)
    ensures Sizes(s) && t < |s.pc| && Victim(s, t, a) < s.n && Tallied(s, t, Victim(s, t, a), Access(s, t, a))
  {
    assert t < |s.pc| && Sizes(s);
    assert t < s.n ==> WorkerOk(s, t);
    hide Inv, Enabled, Access, Tallied, FramesOk, Victim;
    match s.pc[t] {
      case Task => LoopTallied(s, t, a);
      case Top => LoopTallied(s, t, a);
      case Remove => LoopTallied(s, t, a);
      case PopLocal => TakeTallied(s, t, a);
      case Steal => TakeTallied(s, t, a);
      case Public => TakeTallied(s, t, a);
      case Lock => SleepTallied(s, t, a);
      case Register => SleepTallied(s, t, a);
      case Unlock => SleepTallied(s, t, a);
      case Sleep => SleepTallied(s, t, a);
      case Relock => SleepTallied(s, t, a);
      case _ => ScheduleTallied(s, t, a);
    }
  }

  lemma StepBalanced(s: State, t: nat, a: Act)
    requires Inv(s) && Balanced(s) && Enabled(s, t, a)
    ensures Balanced(Access(s, t, a))
  {
    hide Inv, Access, Enabled, InHand, Runs, Victim;
    AccessTallied(s, t, a);
    SumsAfter(s, t, Victim(s, t, a), Access(s, t, a));
  }

  lemma TaskStepBalanced(s: State, w: nat, i: nat, s': State)
    requires Balanced(s) && (Finishes(s, w, i, s') || Tells(s, w, i, s') || StrayTells(s, w, s'))
    ensures Balanced(s')
  {
    assert s'.pc == s.pc && s'.deque == s.deque && s'.public == s.public && s'.tally == s.tally && s'.n == s.n;
    assert s'.stack == s.stack[w := s'.stack[w]] && |s'.stack[w]| == |s.stack[w]|;
    TotalUpdate(s.stack, w, s'.stack[w], Waits);
  }

  lemma NextBalanced(s: State, s': State)
    requires Inv(s) && Balanced(s) && Next(s, s')
    ensures Balanced(s')
  {
    hide Inv, Balanced, Enabled, Access, Finishes, Tells, StrayTells;
    if t: nat, a :| StepOf(s, t, a, s') {
      StepBalanced(s, t, a);
    } else if w: nat, i: nat :| Finishes(s, w, i, s') || Tells(s, w, i, s') {
      TaskStepBalanced(s, w, i, s');
    } else {
      var w: nat :| StrayTells(s, w, s');
      TaskStepBalanced(s, w, 0, s');
    }
  }

  lemma {:induction false} RunBalanced(run: seq<State>, i: nat)
    requires Run(run) && i < |run|
    ensures Balanced(run[i])
  {
    hide Inv, Balanced, Next;
    if i == 0 {
      InitBalanced(run[0]);
    } else {
      RunBalanced(run, i - 1);
      RunInv(run, i - 1);
      NextBalanced(run[i - 1], run[i]);
    }
  }

  // ----------------------------------------------------------- main results

  /** The registered waiters are distinct workers. */
  lemma WaitersFit(s: State)
    requires Reachable(s)
    ensures AllDistinct(s.waiters) && |s.waiters| <= s.n && forall i :: 0 <= i < |s.waiters| ==> s.waiters[i] < s.n
  {
    ReachableInv(s);
    Pigeonhole(s.waiters, s.n);
  }

  /** A worker about to register finds room for itself in the array of n. */
  lemma RegisterHasRoom(s: State, t: nat)
    requires Reachable(s) && t < |s.pc| && s.pc[t].Register?
    ensures |s.waiters| < s.n && t !in s.waiters
  {
    ReachableInv(s);
    assert WorkerOk(s, t);
    Pigeonhole(s.waiters + [t], s.n);
  }

  /** A sleeping worker with nothing to wake it is on the list, and its own deque is empty. */
  lemma SleeperRegistered(s: State, w: nat)
    requires Reachable(s) && w < s.n && w < |s.pc| && w < |s.finished| && w < |s.available| && Asleep(s, w)
    ensures w in s.waiters && w < |s.deque| && s.deque[w] == 0
  {
    ReachableInv(s);
    assert WorkerOk(s, w);
  }

  /** While there is a task in the public queue, some worker is awake or signalled, or a thread in
      schedule is about to signal one. */
  lemma PublicHasWorker(s: State)
    requires Reachable(s) && s.public > 0
    ensures Sizes(s)
    ensures SomeoneAwake(s) || exists t :: 0 <= t < |s.pc| && s.pc[t].Signal?
  {
    ReachableInv(s);
  }

  /** No task gets lost: of those schedule was called with, each has been taken by a worker, or is in a
      queue, or in the hands of a thread about to push it; and of those taken, each has ended, or
      waits for another, or is being run. */
  lemma NoTaskLost(s: State)
    requires Reachable(s)
    ensures Sizes(s)
    ensures s.tally.submitted == s.tally.taken + s.public + Total(s.deque, Queued) + Total(s.pc, InHand)
    ensures s.tally.taken == s.tally.ended + Total(s.stack, Waits) + Total(s.pc[..s.n], Runs)
  {
    var run :| Run(run) && run[|run| - 1] == s;
    RunBalanced(run, |run| - 1);
    hide Run;
  }

  /** So no task is ever forgotten: once every worker sleeps for good and no call of schedule is under
      way, there is no task left in the public queue or in any deque.  Everything scheduled has been
      taken, and has ended or waits for another task. */
  lemma NothingForgotten(s: State)
    requires Reachable(s) && Sizes(s) && !SomeoneAwake(s)
    requires forall t :: 0 <= t < |s.pc| ==> !s.pc[t].Signal?
    ensures s.public == 0 && forall w :: 0 <= w < s.n ==> s.deque[w] == 0
    ensures s.tally.submitted == s.tally.taken + Total(s.pc, InHand)
    ensures s.tally.taken == s.tally.ended + Total(s.stack, Waits)
  {
    ReachableInv(s);
    NoTaskLost(s);
    forall w | 0 <= w < s.n ensures s.deque[w] == 0 && Runs(s.pc[w]) == 0 {
      assert WorkerOk(s, w) && Asleep(s, w);
    }
    hide Inv, Reachable, Balanced;
    AllZero(s.deque, Queued);
    AllZero(s.pc[..s.n], Runs);
  }

  /** A signalled waiter never stays on the list: whoever schedules takes off exactly the worker it
      has just woken. */
  lemma DropsTheWoken(s: State, t: nat)
    requires Reachable(s) && t < |s.pc| && s.pc[t].Drop?
    ensures s.waiters != []
    ensures var l := s.waiters[|s.waiters| - 1];
            l < s.n && l < |s.pc| && l < |s.finished| && l < |s.available| && !Asleep(s, l)
  {
    ReachableInv(s);
  }

  /** The lock is held by at most one thread. */
  lemma OneHolder(s: State, t: nat, u: nat)
    requires Reachable(s) && t < |s.pc| && u < |s.pc| && Holds(s.pc[t]) && Holds(s.pc[u])
    ensures t == u
  {
    ReachableInv(s);
  }

  // ------------------------------------------------ what a wake-up is worth

  /** Worker w is about to return from a wait that slept; e is what woke it. */
  ghost predicate Returns(s: State, w: nat, e: Wake) {
    && Sizes(s) && w < s.n && s.pc[w].Remove? && |s.stack[w]| > 0
    && Innermost(s, w).waits && s.woke[w] == e
  }

  /** While a wait sleeps, its event tells whether the continuation has run, and so the task has
      finished, unless a stale bit is set. */
  lemma EventExact(s: State, w: nat)
    requires Reachable(s) && Sizes(s) && w < s.n && s.pc[w].Sleep? && |s.stack[w]| > 0 && Innermost(s, w).waits
    ensures Innermost(s, w).told ==> Innermost(s, w).done && s.finished[w]
    ensures !s.stale[w] ==> (s.finished[w] <==> Innermost(s, w).told)
  {
    ReachableInv(s);
    assert WorkerOk(s, w);
  }

  /** At the top of the loop a wait returns exactly if its task has finished. */
  lemma TopExact(s: State, w: nat, s': State)
    requires Reachable(s) && w < s.n && StepOf(s, w, Go, s') && s.pc[w].Top?
    ensures s'.pc[w] == Task <==> Innermost(s, w).waits && Innermost(s, w).done
  {
    ReachableInv(s);
    assert WorkerOk(s, w);
  }

  /** Having added its continuation a wait never comes back to the top of the loop: the test of the
      event that is there for this case is never made. */
  lemma NeverTestsEvent(s: State, w: nat)
    requires Reachable(s) && Sizes(s) && w < s.n && s.pc[w].Top? && |s.stack[w]| > 0
    ensures !Innermost(s, w).added
  {
    ReachableInv(s);
    assert WorkerOk(s, w);
  }

  /** What has been counted so far is of no consequence. */
  ghost predicate CanBe(s: State) {
    exists c: Tally :: Reachable(s.(tally := c))
  }

  ghost predicate Same(s: State, t: nat, a: Act, c: Tally) {
    && Enabled(s, t, a) && Enabled(s.(tally := c), t, a)
    && Access(s.(tally := c), t, a) == Access(s, t, a).(tally := Access(s.(tally := c), t, a).tally)
  }

  predicate InSchedule(p: Pc) {
    p.PushLocal? || p.Peek? || p.SignalLock? || p.Signal? || p.Drop? || p.Outside? || p.PublicLock? || p.PushPublic?
  }

  lemma ScheduleIdle(s: State, t: nat, a: Act, c: Tally)
    requires Enabled(s, t, a) && InSchedule(s.pc[t])
    ensures Same(s, t, a, c)
  {
  }

  lemma WaitIdle(s: State, t: nat, a: Act, c: Tally)
    requires Enabled(s, t, a) && !InSchedule(s.pc[t])
    requires s.pc[t].Task? || s.pc[t].Top? || s.pc[t].Sleep? || s.pc[t].Relock? || s.pc[t].Remove?
    ensures Same(s, t, a, c)
  {
    hide Without;
  }

  lemma LookIdle(s: State, t: nat, a: Act, c: Tally)
    requires Enabled(s, t, a) && !InSchedule(s.pc[t])
    requires !s.pc[t].Task? && !s.pc[t].Top? && !s.pc[t].Sleep? && !s.pc[t].Relock? && !s.pc[t].Remove?
    ensures Same(s, t, a, c)
  {
  }

  lemma TallyIdle(s: State, t: nat, a: Act, c: Tally)
    requires Enabled(s, t, a)
    ensures Same(s, t, a, c)
  {
    assert t < |s.pc|;
    hide Enabled, Same;
    if InSchedule(s.pc[t]) {
      ScheduleIdle(s, t, a, c);
    } else if s.pc[t].Task? || s.pc[t].Top? || s.pc[t].Sleep? || s.pc[t].Relock? || s.pc[t].Remove? {
      WaitIdle(s, t, a, c);
    } else {
      LookIdle(s, t, a, c);
    }
  }

  lemma Then(s: State, t: nat, a: Act, s': State)
    requires CanBe(s) && Enabled(s, t, a) && s' == Access(s, t, a).(tally := s'.tally)
    ensures CanBe(s')
  {
    hide Enabled, Access, Reachable;
    var c: Tally :| Reachable(s.(tally := c));
    TallyIdle(s, t, a, c);
    var x := Access(s.(tally := c), t, a);
    assert StepOf(s.(tally := c), t, a, x);
    Extended(s.(tally := c), x);
    assert s'.(tally := x.tally) == x;
  }

  lemma Extended(s: State, s': State)
    requires Reachable(s) && Next(s, s')
    ensures Reachable(s')
  {
    hide Next, Init;
    var run :| Run(run) && run[|run| - 1] == s;
    assert Run(run + [s']);
  }

  /** A pool of one worker, and one thread outside. */
  function One(p: Pc, q: Pc, stack: seq<Frame>, public: nat, waiters: seq<nat>, event: Wake, lock: int, stray: nat,
      woke: Wake): State {
    State(1, [p, q], [stack], [0], public, waiters, [event.finished], [event.available], lock, [stray], [event.stale],
      [woke], Tally(0, 0, 0))
  }

  const Quiet := Wake(false, false, false)

  /** The thread outside pushes a task to the public queue, */
  lemma OutsidePushes(p: Pc, stack: seq<Frame>, public: nat, waiters: seq<nat>, event: Wake, stray: nat, woke: Wake)
    requires CanBe(One(p, Outside, stack, public, waiters, event, -1, stray, woke))
    ensures CanBe(One(p, Signal, stack, public + 1, waiters, event, 1, stray, woke))
  {
    hide CanBe;
    var s0 := One(p, Outside, stack, public, waiters, event, -1, stray, woke);
    var s1 := s0.(pc := [p, PublicLock]);
    var s2 := s1.(pc := [p, PushPublic], lock := 1);
    Then(s0, 1, Schedule, s1);
    Then(s1, 1, Go, s2);
    Then(s2, 1, Go, s2.(pc := [p, Signal], public := public + 1));
  }

  /** with nobody asleep, */
  lemma OutsideSchedules(p: Pc, stack: seq<Frame>, public: nat, event: Wake, stray: nat, woke: Wake)
    requires CanBe(One(p, Outside, stack, public, [], event, -1, stray, woke))
    ensures CanBe(One(p, Outside, stack, public + 1, [], event, -1, stray, woke))
  {
    hide CanBe;
    OutsidePushes(p, stack, public, [], event, stray, woke);
    var s0 := One(p, Signal, stack, public + 1, [], event, 1, stray, woke);
    Then(s0, 1, Go, s0.(pc := [p, Outside], lock := -1));
  }

  /** or with the worker asleep. */
  lemma OutsideWakes(stack: seq<Frame>, event: Wake, stray: nat, woke: Wake)
    requires CanBe(One(Sleep, Outside, stack, 0, [0], event, -1, stray, woke))
    ensures CanBe(One(Sleep, Outside, stack, 1, [], event.(available := true), -1, stray, woke))
  {
    hide CanBe;
    OutsidePushes(Sleep, stack, 0, [0], event, stray, woke);
    var s0 := One(Sleep, Signal, stack, 1, [0], event, 1, stray, woke);
    var s1 := s0.(pc := [Sleep, Drop], available := [true]);
    Then(s0, 1, Go, s1);
    Then(s1, 1, Go, s1.(pc := [Sleep, Outside], waiters := [], lock := -1));
  }

  /** The worker loop gets as far as the public queue. */
  lemma LooksForTask(stack: seq<Frame>, public: nat, stray: nat, woke: Wake)
    requires |stack| > 0 && (stack[|stack| - 1] == Base || stack[|stack| - 1] == Waiting)
    requires CanBe(One(Top, Outside, stack, public, [], Quiet, -1, stray, woke))
    ensures CanBe(One(Public, Outside, stack, public, [], Quiet, 0, stray, woke))
  {
    hide CanBe;
    var s0 := One(Top, Outside, stack, public, [], Quiet, -1, stray, woke);
    var s1 := s0.(pc := [PopLocal, Outside]);
    var s2 := s1.(pc := [Steal, Outside]);
    var s3 := s2.(pc := [Lock, Outside]);
    var s4 := s3.(pc := [Public, Outside], lock := 0);
    Then(s0, 0, Go, s1);
    Then(s1, 0, Go, s2);
    Then(s2, 0, Go, s3);
    Then(s3, 0, Go, s4);
  }

  lemma TakesTask(stack: seq<Frame>, stray: nat, woke: Wake)
    requires |stack| > 0 && (stack[|stack| - 1] == Base || stack[|stack| - 1] == Waiting)
    requires CanBe(One(Top, Outside, stack, 1, [], Quiet, -1, stray, woke))
    ensures CanBe(One(Task, Outside, stack, 0, [], Quiet, -1, stray, woke))
  {
    hide CanBe;
    LooksForTask(stack, 1, stray, woke);
    var s0 := One(Public, Outside, stack, 1, [], Quiet, 0, stray, woke);
    Then(s0, 0, Go, One(Task, Outside, stack, 0, [], Quiet, -1, stray, woke));
  }

  /** The task waits for another one, and there is nothing else to run. */
  lemma FallsAsleep(stack: seq<Frame>, stray: nat, woke: Wake)
    requires CanBe(One(Task, Outside, stack, 0, [], Quiet, -1, stray, woke))
    ensures CanBe(One(Sleep, Outside, stack + [Waiting.(added := true)], 0, [0], Quiet, -1, stray, woke))
  {
    hide CanBe;
    var inner, asleep := stack + [Waiting], stack + [Waiting.(added := true)];
    var s0 := One(Top, Outside, inner, 0, [], Quiet, -1, stray, woke);
    Then(One(Task, Outside, stack, 0, [], Quiet, -1, stray, woke), 0, Nest, s0);
    LooksForTask(inner, 0, stray, woke);
    assert inner[|inner| - 1 := Waiting.(added := true)] == asleep;
    var s1 := One(Public, Outside, inner, 0, [], Quiet, 0, stray, woke);
    var s2 := One(Register, Outside, asleep, 0, [], Quiet, 0, stray, woke);
    var s3 := s2.(pc := [Unlock, Outside], waiters := [0]);
    Then(s1, 0, Go, s2);
    Then(s2, 0, Go, s3);
    Then(s3, 0, Go, s3.(pc := [Sleep, Outside], lock := -1));
  }

  lemma WakesUp(stack: seq<Frame>, public: nat, waiters: seq<nat>, event: Wake, stray: nat, woke: Wake)
    requires (event.finished || event.available) && |stack| > 0
    requires CanBe(One(Sleep, Outside, stack, public, waiters, event, -1, stray, woke))
    ensures CanBe(One(Remove, Outside, stack, public, waiters, Quiet, 0, stray, event))
  {
    hide CanBe;
    var s0 := One(Relock, Outside, stack, public, waiters, Quiet, -1, stray, event);
    Then(One(Sleep, Outside, stack, public, waiters, event, -1, stray, woke), 0, Go, s0);
    Then(s0, 0, Go, s0.(pc := [Remove, Outside], lock := 0));
  }

  /** The first wait, woken by a task that has become available. */
  lemma FirstWait(woke: Wake)
    ensures CanBe(One(Remove, Outside, [Base, Waiting.(added := true)], 1, [], Quiet, 0, 0,
            Wake(false, true, false)))
  {
    hide CanBe;
    var s := One(Top, Outside, [Base], 0, [], Quiet, -1, 0, woke);
    assert CanBe(s) by { Start(s); }
    OutsideSchedules(Top, [Base], 0, Quiet, 0, woke);
    TakesTask([Base], 0, woke);
    FallsAsleep([Base], 0, woke);
    assert [Base] + [Waiting.(added := true)] == [Base, Waiting.(added := true)];
    OutsideWakes([Base, Waiting.(added := true)], Quiet, 0, woke);
    WakesUp([Base, Waiting.(added := true)], 1, [], Wake(false, true, false), 0, woke);
  }

  lemma Start(s: State)
    requires Init(s)
    ensures CanBe(s)
  {
    assert Run([s]);
    assert Reachable(s.(tally := s.tally));
  }

  /** It returns; its task takes the other one, which waits in turn. */
  lemma SecondWait()
    ensures CanBe(One(Sleep, Outside, [Base, Waiting, Waiting.(added := true)], 0, [0], Quiet, -1, 1,
            Wake(false, true, false)))
  {
    hide CanBe;
    var woke := Wake(false, true, false);
    var stack := [Base, Waiting.(added := true)];
    FirstWait(Quiet);
    assert stack[..|stack| - 1] == [Base];
    var s0 := One(Task, Outside, [Base], 1, [], Quiet, -1, 1, woke);
    Then(One(Remove, Outside, stack, 1, [], Quiet, 0, 0, woke), 0, Go, s0);
    assert [Base] + [Waiting] == [Base, Waiting];
    Then(s0, 0, Nest, One(Top, Outside, [Base, Waiting], 1, [], Quiet, -1, 1, woke));
    TakesTask([Base, Waiting], 1, woke);
    FallsAsleep([Base, Waiting], 1, woke);
    assert [Base, Waiting] + [Waiting.(added := true)] == [Base, Waiting, Waiting.(added := true)];
  }

  lemma StrayThen(s: State, s': State)
    requires CanBe(s) && StrayTells(s, 0, s')
    ensures CanBe(s')
  {
    hide Reachable;
    var c: Tally :| Reachable(s.(tally := c));
    assert StrayTells(s.(tally := c), 0, s'.(tally := c));
    Extended(s.(tally := c), s'.(tally := c));
  }

  lemma Actual(s: State) returns (s': State)
    requires CanBe(s)
    ensures Reachable(s') && s' == s.(tally := s'.tally)
  {
    var c: Tally :| Reachable(s.(tally := c));
    s' := s.(tally := c);
  }

  /** The second wait, woken by the continuation that the first one left behind. */
  lemma StaleWait(e: Wake) returns (s: State)
    requires e.finished && e.stale
    ensures CanBe(s) && Returns(s, 0, e) && !Innermost(s, 0).done
  {
    hide CanBe;
    var stack, woke := [Base, Waiting, Waiting.(added := true)], Wake(false, true, false);
    SecondWait();
    var asleep := One(Sleep, Outside, stack, 0, [0], Quiet, -1, 1, woke);
    var told := One(Sleep, Outside, stack, 0, [0], e.(available := false), -1, 0, woke);
    StrayThen(asleep, told);
    if e.available {
      OutsideWakes(stack, e.(available := false), 0, woke);
      WakesUp(stack, 1, [], e, 0, woke);
      s := One(Remove, Outside, stack, 1, [], Quiet, 0, 0, e);
    } else {
      WakesUp(stack, 0, [0], e, 0, woke);
      s := One(Remove, Outside, stack, 0, [0], Quiet, 0, 0, e);
    }
  }

  lemma RemoveReturns(s: State, e: Wake)
    requires Returns(s, 0, e)
    ensures Enabled(s, 0, Go)
    ensures var s' := Access(s, 0, Go); s'.pc[0] == Task && s'.stack[0] == s.stack[0][..|s.stack[0]| - 1]
  {
    hide Without;
  }

  /** The result of the event's wait reads as task_finished whatever the event was.  Whatever wakes a
      wait, short of a bit that only its own continuation can have set, the wait can return with its
      task unfinished: because another task has become available, or because an earlier wait returned
      too soon and its continuation has run since. */
  lemma AnyWakeUpEndsWait(e: Wake) returns (s: State, s': State)
    requires (e.finished || e.available) && (e.stale <==> e.finished)
    ensures Reachable(s) && Returns(s, 0, e) && !Innermost(s, 0).done
    ensures StepOf(s, 0, Go, s') && s'.pc[0] == Task && s'.stack[0] == s.stack[0][..|s.stack[0]| - 1]
  {
    hide Reachable, CanBe, Enabled, Access;
    var s0;
    if !e.finished {
      s0 := One(Remove, Outside, [Base, Waiting.(added := true)], 1, [], Quiet, 0, 0, e);
      FirstWait(Quiet);
    } else {
      s0 := StaleWait(e);
    }
    s := Actual(s0);
    RemoveReturns(s, e);
    s' := Access(s, 0, Go);
  }

  /** A wait that slept is sure to return with its task finished if and only if task_finished was set
      when it woke up, and not for an earlier wait that had returned too soon. */
  lemma WaitExact(e: Wake)
    requires (e.finished || e.available) && (e.stale ==> e.finished)
    ensures (forall s: State, w: nat :: Reachable(s) && Returns(s, w, e) ==> Innermost(s, w).done)
            <==> e.finished && !e.stale
  {
    hide Reachable;
    if e.finished && !e.stale {
      forall s: State, w: nat | Reachable(s) && Returns(s, w, e) ensures Innermost(s, w).done {
        ReachableInv(s);
        assert WorkerOk(s, w);
      }
    } else {
      var s, s' := AnyWakeUpEndsWait(e);
    }
  }

  // -------------------------------------------------------------- no deadlock

  /** What a thread does next, or may do. */
  function Usual(p: Pc): Act {
    if p.Task? then End else if p.Outside? then Schedule else Go
  }

  predicate Locks(p: Pc) {
    p.Lock? || p.Relock? || p.SignalLock? || p.PublicLock?
  }

  lemma HasFrame(s: State, t: nat)
    requires Inv(s) && t < s.n
    ensures |s.stack[t]| > 0
  {
    assert WorkerOk(s, t);
  }

  lemma LocalEnabled(s: State, t: nat)
    requires Inv(s) && t < |s.pc| && !Holds(s.pc[t]) && !Locks(s.pc[t]) && !(t < s.n && Asleep(s, t))
    ensures Enabled(s, t, Usual(s.pc[t]))
  {
    if t < s.n {
      HasFrame(s, t);
    }
    hide LockOk, WaitersOk, DropOk, PublicOk, WorkerOk;
  }

  lemma LockEnabled(s: State, t: nat)
    requires Inv(s) && t < |s.pc| && Locks(s.pc[t]) && s.lock == -1
    ensures Enabled(s, t, Usual(s.pc[t]))
  {
    hide LockOk, WaitersOk, DropOk, PublicOk, WorkerOk;
  }

  lemma HolderEnabled(s: State, t: nat)
    requires Inv(s) && t < |s.pc| && Holds(s.pc[t])
    ensures Enabled(s, t, Usual(s.pc[t]))
  {
    if t < s.n {
      HasFrame(s, t);
    }
    hide LockOk, PublicOk, WorkerOk;
  }

  /** Steps to go until the mutex is released. */
  function ToRelease(p: Pc): nat {
    match p
    case Public => 3
    case Register => 2
    case Unlock => 1
    case Remove => 1
    case PushPublic => 3
    case Signal => 2
    case Drop => 1
    case _ => 0
  }

  /** The holder of the mutex gets nearer to releasing it with every step. */
  lemma HolderReleases(s: State, t: nat, a: Act, s': State)
    requires Reachable(s) && StepOf(s, t, a, s') && Holds(s.pc[t])
    ensures ToRelease(s'.pc[t]) < ToRelease(s.pc[t]) && (s'.lock == -1 <==> ToRelease(s'.pc[t]) == 0)
  {
    ReachableInv(s);
    assert LockOk(s);
    hide Reachable, Inv, StepOf;
    HolderStep(s, t, a, s');
  }

  lemma HolderStep(s: State, t: nat, a: Act, s': State)
    requires StepOf(s, t, a, s') && Holds(s.pc[t]) && LockOk(s)
    ensures ToRelease(s'.pc[t]) < ToRelease(s.pc[t]) && (s'.lock == -1 <==> ToRelease(s'.pc[t]) == 0)
  {
    hide Without;
    assert s.lock == t;
    hide LockOk;
  }

  /** A call of schedule returns without having woken anybody only if it has found the list of waiters
      empty; otherwise the last waiter has been signalled. */
  lemma ScheduleWakes(s: State, t: nat, a: Act, s': State)
    requires Reachable(s) && StepOf(s, t, a, s') && (s'.pc[t].Task? || s'.pc[t].Outside?)
    requires s.pc[t].PushLocal? || s.pc[t].Peek? || s.pc[t].SignalLock? || s.pc[t].Signal? || s.pc[t].Drop?
             || s.pc[t].PublicLock? || s.pc[t].PushPublic?
    ensures if s.pc[t].Drop? then s.waiters != [] && s'.waiters == s.waiters[..|s.waiters| - 1] else s.waiters == []
  {
    ReachableInv(s);
    hide Reachable, StepOf;
    DropsSomeone(s, t);
    hide Inv;
    ScheduleStep(s, t, a, s');
  }

  lemma DropsSomeone(s: State, t: nat)
    requires Inv(s)
    ensures t < |s.pc| && s.pc[t].Drop? ==> s.waiters != []
  {
    hide LockOk, WaitersOk, PublicOk, WorkerOk;
  }

  lemma ScheduleStep(s: State, t: nat, a: Act, s': State)
    requires StepOf(s, t, a, s') && (s'.pc[t].Task? || s'.pc[t].Outside?) && InSchedule(s.pc[t])
    requires s.pc[t].Drop? ==> s.waiters != []
    ensures s.pc[t].Outside? || if s.pc[t].Drop? then s'.waiters == s.waiters[..|s.waiters| - 1] else s.waiters == []
  {
  }

  /** A worker turns to the public queue, and to sleep, only after it has tried to steal, and tries that
      only with its own deque empty. */
  lemma TriesToSteal(s: State, t: nat, a: Act, s': State)
    requires StepOf(s, t, a, s')
    ensures s'.pc[t].Lock? ==> s.pc[t].Steal? && a == Go
    ensures s'.pc[t].Steal? && s.pc[t].PopLocal? ==> s.deque[t] == 0
    ensures s'.pc[t].Steal? ==> s.pc[t].PopLocal? || (s.pc[t].Remove? && !Innermost(s, t).waits)
    ensures s'.pc[t].Register? ==> s.pc[t].Public? && s.public == 0
  {
    hide Without;
  }

  /** Nobody waits for the mutex for ever: a thread that does not sleep can go on, or the one that holds
      the mutex can, and is on its way to release it. */
  lemma NoDeadlock(s: State, t: nat)
    requires Reachable(s) && Sizes(s) && t < |s.pc| && !(t < s.n && Asleep(s, t))
    ensures Enabled(s, t, Usual(s.pc[t]))
         || (0 <= s.lock < |s.pc| && Holds(s.pc[s.lock]) && Enabled(s, s.lock, Usual(s.pc[s.lock])))
  {
    ReachableInv(s);
    assert LockOk(s);
    hide Inv, Enabled, Reachable;
    if Holds(s.pc[t]) {
      HolderEnabled(s, t);
    } else if !Locks(s.pc[t]) {
      LocalEnabled(s, t);
    } else if s.lock == -1 {
      LockEnabled(s, t);
    } else {
      HolderEnabled(s, s.lock);
    }
  }

  // ----------------------------------------------------- starting the workers

  /** recursive_spawn_worker_thread: the workers that end up running, given at least one thread. */
  function Spawned(index: nat, threads: nat): seq<nat>
    requires threads >= 1
    decreases threads
  {
    if threads == 1 then [index]
    else Spawned(index + threads / 2, threads - threads / 2) + Spawned(index, threads / 2)
  }

  /** Every worker of the range is started, once. */
  lemma {:induction false} SpawnsEach(index: nat, threads: nat)
    requires threads >= 1
    ensures |Spawned(index, threads)| == threads && AllDistinct(Spawned(index, threads))
    ensures forall w: nat :: w in Spawned(index, threads) <==> index <= w < index + threads
    decreases threads
  {
    if threads > 1 {
      var a, b := Spawned(index + threads / 2, threads - threads / 2), Spawned(index, threads / 2);
      SpawnsEach(index + threads / 2, threads - threads / 2);
      SpawnsEach(index, threads / 2);
      forall i, j | 0 <= i < j < |a + b| ensures (a + b)[i] != (a + b)[j] {
        assert (a + b)[i] in (if i < |a| then a else b) && (a + b)[j] in (if j < |a| then a else b);
      }
    }
  }
}
