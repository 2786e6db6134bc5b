/** Serial contexts on a pool of threads: each context has its own queue of tasks, and a token in the
    pool's execution queue for each time the context may have work.

    Threads interleave one access at a time; the pool's mutex and the contexts' task queue mutexes
    are each taken and released as a step.  A call of schedule is made by any thread at all, a
    worker in the middle of a task included; the calls are kept apart from the workers.  Waiting on
    the condition variable is leaving the mutex and trying again.  `owner`, `scheduled`, `started` and
    `finished` are history: no step looks at them. */
module ContextPool {

  type Job = int

  datatype Pc =
    | Idle                            // waiting for the mutex or for work
    | Locked                          // holding the mutex: look at the execution queue
    | Perform(c: nat)                 // performOneTask: CAS of the flag
    | Take(c: nat)                    //   pop the context's queue
    | Running(c: nat, job: Job)       //   run the task
    | Clear(c: nat, executed: bool)   //   store false in the flag
    | Relock(c: nat, executed: bool)  // lock the mutex again
    | Push(c: nat, executed: bool)    // put the token back if a task was run

  datatype Call = Out | Notify(c: nat)

  datatype State = State(
    pc: seq<Pc>,
    calls: seq<Call>,
    lock: int,                        // the worker that holds the mutex, or -1
    tokens: seq<nat>,                 // the execution queue
    tasks: seq<seq<Job>>,
    busy: seq<bool>,                  // _executionInProgress
    owner: seq<int>,
    scheduled: seq<seq<Job>>,
    started: seq<seq<Job>>,
    finished: seq<nat>)

  predicate Sizes(s: State) {
    |s.tasks| == |s.busy| == |s.owner| == |s.scheduled| == |s.started| == |s.finished|
  }

  ghost predicate Init(s: State) {
    && Sizes(s) && s.lock == -1 && s.tokens == []
    && (forall t :: 0 <= t < |s.pc| ==> s.pc[t] == Idle)
    && (forall k :: 0 <= k < |s.calls| ==> s.calls[k] == Out)
    && (forall c :: 0 <= c < |s.tasks| ==> s.tasks[c] == s.scheduled[c] == s.started[c] == [] && s.owner[c] == -1)
    && (forall c :: 0 <= c < |s.tasks| ==> !s.busy[c] && s.finished[c] == 0)
  }

  // ------------------------------------------------------------------ steps

  predicate Enabled(s: State, t: nat) {
    && t < |s.pc|
    && Sizes(s)
    && match s.pc[t]
       case Idle => s.lock == -1
       case Locked => s.tokens != [] ==> s.tokens[0] < |s.tasks|
       case Perform(c) => c < |s.tasks|
       case Take(c) => c < |s.tasks|
       case Running(c, _) => c < |s.tasks|
       case Clear(c, _) => c < |s.tasks|
       case Relock(_, _) => s.lock == -1
       case Push(_, _) => true
  }

  /** The state after worker t's next access. */
  function Access(s: State, t: nat): State
    requires Enabled(s, t)
  {
    match s.pc[t]
    case Idle =>
      s.(pc := s.pc[t := Locked], lock := t)
    case Locked =>
      if s.tokens == []
      then s.(pc := s.pc[t := Idle], lock := -1)
      else s.(pc := s.pc[t := Perform(s.tokens[0])], tokens := s.tokens[1..], lock := -1)
    case Perform(c) =>
      if s.busy[c]
      then s.(pc := s.pc[t := Relock(c, false)])
      else s.(pc := s.pc[t := Take(c)], busy := s.busy[c := true], owner := s.owner[c := t])
    case Take(c) =>
      if s.tasks[c] == []
      then s.(pc := s.pc[t := Clear(c, false)])
      else s.(pc := s.pc[t := Running(c, s.tasks[c][0])], tasks := s.tasks[c := s.tasks[c][1..]],
              started := s.started[c := s.started[c] + [s.tasks[c][0]]])
    case Running(c, _) =>
      s.(pc := s.pc[t := Clear(c, true)], finished := s.finished[c := s.finished[c] + 1])
    case Clear(c, executed) =>
      s.(pc := s.pc[t := Relock(c, executed)], busy := s.busy[c := false], owner := s.owner[c := -1])
    case Relock(c, executed) =>
      s.(pc := s.pc[t := Push(c, executed)], lock := t)
    case Push(c, executed) =>
      s.(pc := s.pc[t := Locked], tokens := if executed then s.tokens + [c] else s.tokens)
  }

  /** schedule: add to the context's queue, ... */
  ghost predicate Schedules(s: State, k: nat, c: nat, job: Job, s': State) {
    && Sizes(s) && k < |s.calls| && s.calls[k] == Out && c < |s.tasks|
    && s' == s.(calls := s.calls[k := Notify(c)], tasks := s.tasks[c := s.tasks[c] + [job]],
                scheduled := s.scheduled[c := s.scheduled[c] + [job]])
  }

  /** ... then, under the mutex, put a token for the context into the execution queue. */
  ghost predicate Notifies(s: State, k: nat, s': State) {
    && k < |s.calls| && s.calls[k].Notify? && s.lock == -1
    && s' == s.(calls := s.calls[k := Out], tokens := s.tokens + [s.calls[k].c])
  }

  ghost predicate Works(s: State, t: nat, s': State) {
    Enabled(s, t) && s' == Access(s, t)
  }

  ghost predicate Next(s: State, s': State) {
    || (exists t: nat :: Works(s, t, s'))
    || (exists k: nat, c: nat, job :: Schedules(s, k, c, job, s'))
    || (exists k: nat :: Notifies(s, k, s'))
  }

  /** A run: any interleaving of any number of workers and calls. */
  ghost predicate Run(run: seq<State>) {
    && |run| > 0 && Init(run[0])
    && (forall i :: 0 <= i < |run| - 1 ==> Next(run[i], run[i + 1]))
  }

  ghost predicate Reachable(s: State) {
    exists run: seq<State> :: Run(run) && run[|run| - 1] == s
  }

  // -------------------------------------------------------------- invariant

  /** Between a successful CAS of context c's flag and the store that clears it. */
  predicate Executing(p: Pc, c: nat) {
    (p.Take? && p.c == c) || (p.Running? && p.c == c) || (p.Clear? && p.c == c)
  }

  ghost predicate ContextOk(s: State, c: nat)
    requires Sizes(s) && c < |s.tasks|
  {
    && -1 <= s.owner[c] < |s.pc|
    && (s.busy[c] <==> s.owner[c] >= 0)
    && (forall t :: 0 <= t < |s.pc| ==> (Executing(s.pc[t], c) <==> s.owner[c] == t))
    && s.started[c] + s.tasks[c] == s.scheduled[c]
    && |s.started[c]| == s.finished[c] + (if s.owner[c] >= 0 && s.pc[s.owner[c]].Running? then 1 else 0)
    && (s.owner[c] >= 0 && s.pc[s.owner[c]].Running? ==> s.pc[s.owner[c]].job == s.started[c][|s.started[c]| - 1])
  }

  /** Something will look at context c's queue, without anybody scheduling on it again. */
  ghost predicate Covered(s: State, c: nat) {
    || c in s.tokens
    || Notify(c) in s.calls
    || (exists t :: 0 <= t < |s.pc| && WillLook(s.pc[t], c))
  }

  predicate WillLook(p: Pc, c: nat) {
    p == Perform(c) || p == Take(c) || (p.Running? && p.c == c) || p == Clear(c, true) || p == Relock(c, true)
      || p == Push(c, true)
  }

  /** A task is queued, and nobody is going to look at it. */
  ghost predicate Stranded(s: State, c: nat) {
    c < |s.tasks| && s.tasks[c] != [] && !Covered(s, c)
  }

  /** Worker t, at its CAS with the last token of context c, finds the flag held by a worker that has
      already found the queue empty; since then a task has been queued. */
  ghost predicate Misses(s: State, t: nat, c: nat) {
    && Sizes(s) && c < |s.tasks| && t < |s.pc| && s.pc[t] == Perform(c)
    && s.busy[c] && 0 <= s.owner[c] < |s.pc| && s.pc[s.owner[c]] == Clear(c, false)
    && s.tasks[c] != [] && c !in s.tokens && Notify(c) !in s.calls
    && forall u :: 0 <= u < |s.pc| && u != t ==> !WillLook(s.pc[u], c)
  }

  ghost predicate InRange(s: State) {
    && Sizes(s)
    && (forall i :: 0 <= i < |s.tokens| ==> s.tokens[i] < |s.tasks|)
    && (forall k :: 0 <= k < |s.calls| && s.calls[k].Notify? ==> s.calls[k].c < |s.tasks|)
    && (forall t :: 0 <= t < |s.pc| && !s.pc[t].Idle? && !s.pc[t].Locked? ==> s.pc[t].c < |s.tasks|)
  }

  ghost predicate Inv(s: State) {
    && InRange(s)
    && (forall c :: 0 <= c < |s.tasks| ==> ContextOk(s, c))
  }

  lemma InitInv(s: State)
    requires Init(s)
    ensures Inv(s)
  {
  }

  lemma RangeKept(s: State, t: nat)
    requires Inv(s) && Enabled(s, t)
    ensures InRange(Access(s, t)) && |Access(s, t).tasks| == |s.tasks|
  {
    hide ContextOk;
  }

  ghost predicate ContextOkAfter(s: State, t: nat, c: nat)
    requires Enabled(s, t)
  {
    var s' := Access(s, t);
    Sizes(s') && c < |s'.tasks| && |s'.tasks| == |s.tasks| && ContextOk(s', c)
  }

  lemma PoolKept(s: State, t: nat, c: nat)
    requires InRange(s) && Enabled(s, t) && c < |s.tasks| && ContextOk(s, c)
             && (s.pc[t].Idle? || s.pc[t].Locked? || s.pc[t].Relock? || s.pc[t].Push?)
    ensures ContextOkAfter(s, t, c)
  {
  }

  lemma PerformKept(s: State, t: nat, c: nat)
    requires InRange(s) && Enabled(s, t) && c < |s.tasks| && ContextOk(s, c) && (s.pc[t].Perform?)
    ensures ContextOkAfter(s, t, c)
  {
  }

  lemma TakeKept(s: State, t: nat, c: nat)
    requires InRange(s) && Enabled(s, t) && c < |s.tasks| && ContextOk(s, c) && (s.pc[t].Take?)
    ensures ContextOkAfter(s, t, c)
  {
  }

  lemma RunningKept(s: State, t: nat, c: nat)
    requires InRange(s) && Enabled(s, t) && c < |s.tasks| && ContextOk(s, c) && (s.pc[t].Running?)
    ensures ContextOkAfter(s, t, c)
  {
  }

  lemma ClearKept(s: State, t: nat, c: nat)
    requires InRange(s) && Enabled(s, t) && c < |s.tasks| && ContextOk(s, c) && (s.pc[t].Clear?)
    ensures ContextOkAfter(s, t, c)
  {
  }

  lemma ContextKept(s: State, t: nat, c: nat)
    requires InRange(s) && Enabled(s, t) && c < |s.tasks| && ContextOk(s, c)
    ensures ContextOkAfter(s, t, c)
  {
    hide ContextOk, ContextOkAfter;
    match s.pc[t] {
      case Perform(_) => PerformKept(s, t, c);
      case Take(_) => TakeKept(s, t, c);
      case Running(_, _) => RunningKept(s, t, c);
      case Clear(_, _) => ClearKept(s, t, c);
      case _ => PoolKept(s, t, c);
    }
  }

  lemma ContextsKept(s: State, t: nat)
    requires Inv(s) && Enabled(s, t)
    ensures InRange(Access(s, t)) && forall c :: 0 <= c < |s.tasks| ==> ContextOk(Access(s, t), c)
  {
    hide ContextOk, Access, Enabled;
    RangeKept(s, t);
    forall c | 0 <= c < |s.tasks| ensures ContextOk(Access(s, t), c) {
      ContextKept(s, t, c);
    }
  }

  lemma WorksInv(s: State, t: nat, s': State)
    requires Inv(s) && Works(s, t, s')
    ensures Inv(s')
  {
    hide ContextOk, Access, Enabled;
    ContextsKept(s, t);
    RangeKept(s, t);
  }

  lemma SchedulesInv(s: State, k: nat, c: nat, job: Job, s': State)
    requires Inv(s) && Schedules(s, k, c, job, s')
    ensures Inv(s')
  {
    forall d | 0 <= d < |s'.tasks| ensures ContextOk(s', d) {
      assert ContextOk(s, d);
    }
  }

  lemma NotifiesInv(s: State, k: nat, s': State)
    requires Inv(s) && Notifies(s, k, s')
    ensures Inv(s')
  {
    forall d | 0 <= d < |s'.tasks| ensures ContextOk(s', d) {
      assert ContextOk(s, d);
    }
  }

  lemma NextInv(s: State, s': State)
    requires Inv(s) && Next(s, s')
    ensures Inv(s')
  {
    hide Inv, Works, Schedules, Notifies;
    if t: nat :| Works(s, t, s') {
      WorksInv(s, t, s');
    } else if k: nat, c: nat, job :| Schedules(s, k, c, job, s') {
      SchedulesInv(s, k, c, job, s');
    } else {
      var k: nat :| Notifies(s, k, s');
      NotifiesInv(s, k, s');
    }
  }

  lemma {:induction false} RunInv(run: seq<State>, i: nat)
    requires Run(run) && i < |run|
    ensures Inv(run[i])
  {
    hide Inv, Next;
    if i == 0 {
      InitInv(run[0]);
    } else {
      RunInv(run, i - 1);
      assert Next(run[i - 1], run[i - 1 + 1]);
      NextInv(run[i - 1], run[i]);
    }
  }

  lemma ReachableInv(s: State)
    requires Reachable(s)
    ensures Inv(s)
  {
    hide Inv;
    var run :| Run(run) && run[|run| - 1] == s;
    RunInv(run, |run| - 1);
  }

  // ----------------------------------------------------------- main results

  /** At most one worker is between the CAS and the store of a context's flag: the tasks of one
      context never run at the same time. */
  lemma OneWorkerPerContext(s: State, c: nat, t: nat, u: nat)
    requires Reachable(s) && c < |s.tasks| && t < |s.pc| && u < |s.pc| && Executing(s.pc[t], c) && Executing(s.pc[u], c)
    ensures t == u && c < |s.busy| && s.busy[c]
  {
    ReachableInv(s);
    assert ContextOk(s, c);
  }

  /** The tasks of a context start in the order in which they were scheduled, each at most once: those
      started and those still queued make up, in this order, all that were scheduled. */
  lemma InScheduleOrder(s: State, c: nat)
    requires Reachable(s) && c < |s.tasks|
    ensures Sizes(s) && s.started[c] + s.tasks[c] == s.scheduled[c]
  {
    ReachableInv(s);
    assert ContextOk(s, c);
  }

  /** When a task starts, all tasks of its context started before it have finished. */
  lemma StartsAfterTheLast(s: State, t: nat, s': State)
    requires Reachable(s) && Works(s, t, s') && s.pc[t].Take? && s'.pc[t].Running?
    ensures var c := s.pc[t].c;
            && Sizes(s) && c < |s.started| && s.finished[c] == |s.started[c]| < |s.scheduled[c]|
            && s'.pc[t].job == s.scheduled[c][|s.started[c]|]
  {
    ReachableInv(s);
    var c := s.pc[t].c;
    assert ContextOk(s, c);
    assert s.scheduled[c][|s.started[c]|] == (s.started[c] + s.tasks[c])[|s.started[c]|];
  }

  /** A worker puts a token back exactly if it has run a task with it: what it says of that is true when
      it gives up the flag, stays the same, and decides what it does under the mutex.  So tokens for
      contexts with nothing to do run out. */
  lemma PutsBackExact(s: State, t: nat, s': State)
    requires Works(s, t, s')
    ensures s'.pc[t].Clear? ==>
              (s'.pc[t].executed <==> s.pc[t].Running? && s'.finished[s'.pc[t].c] == s.finished[s'.pc[t].c] + 1)
    ensures s'.pc[t].Relock? ==>
              s.pc[t].c == s'.pc[t].c && (if s.pc[t].Clear? then s.pc[t].executed else false) == s'.pc[t].executed
    ensures s'.pc[t].Push? ==> s.pc[t].c == s'.pc[t].c && s.pc[t].executed == s'.pc[t].executed
    ensures s.pc[t].Push? ==> s'.tokens == s.tokens + if s.pc[t].executed then [s.pc[t].c] else []
    ensures !s.pc[t].Push? ==> s'.tokens <= s.tokens || s.tokens == [s.tokens[0]] + s'.tokens
  {
  }

  // ------------------------------------------------------------- the mutex

  predicate HoldsMutex(p: Pc) {
    p.Locked? || p.Push?
  }

  ghost predicate MutexOk(s: State) {
    -1 <= s.lock < |s.pc| && forall t :: 0 <= t < |s.pc| ==> (HoldsMutex(s.pc[t]) <==> s.lock == t)
  }

  lemma NextMutex(s: State, s': State)
    requires MutexOk(s) && Next(s, s')
    ensures MutexOk(s')
  {
    hide Works, MutexOk;
    if t: nat :| Works(s, t, s') {
      WorksMutex(s, t, s');
    } else {
      CallsMutex(s, s');
    }
  }

  lemma WorksMutex(s: State, t: nat, s': State)
    requires MutexOk(s) && Works(s, t, s')
    ensures MutexOk(s')
  {
  }

  lemma CallsMutex(s: State, s': State)
    requires MutexOk(s)
    requires (exists k: nat, c: nat, job :: Schedules(s, k, c, job, s')) || exists k: nat :: Notifies(s, k, s')
    ensures MutexOk(s')
  {
  }

  lemma {:induction false} RunMutex(run: seq<State>, i: nat)
    requires Run(run) && i < |run|
    ensures MutexOk(run[i])
  {
    hide Next;
    if i > 0 {
      RunMutex(run, i - 1);
      assert Next(run[i - 1], run[i - 1 + 1]);
      NextMutex(run[i - 1], run[i]);
    }
  }

  /** The mutex is held exactly by a worker that is where it will release it, so that nobody waits for
      it for ever: a worker that has not gone to sleep can go on, or the holder of the mutex can. */
  lemma NoDeadlock(s: State, t: nat)
    requires Reachable(s) && t < |s.pc|
    ensures HoldsMutex(s.pc[t]) <==> s.lock == t
    ensures Enabled(s, t) || (0 <= s.lock < |s.pc| && HoldsMutex(s.pc[s.lock]) && Enabled(s, s.lock))
  {
    ReachableInv(s);
    var run :| Run(run) && run[|run| - 1] == s;
    RunMutex(run, |run| - 1);
    hide ContextOk, Run, Reachable;
  }

  /** The holder of the mutex releases it with its next step or, having put a token back, with the one
      after that. */
  lemma ReleasesMutex(s: State, t: nat, s': State)
    requires Works(s, t, s') && HoldsMutex(s.pc[t])
    ensures if s.pc[t].Push? then s'.pc[t].Locked? && s'.lock == s.lock else s'.lock == -1 && !HoldsMutex(s'.pc[t])
  {
  }

  // ------------------------------------------------ when a task gets stranded

  /** A token taken off the queue is in the worker's hand. */
  lemma TokenKept(s: State, t: nat, c: nat)
    requires Enabled(s, t) && c in s.tokens
    ensures c in Access(s, t).tokens || WillLook(Access(s, t).pc[t], c)
  {
    if s.pc[t].Locked? {
      assert s.tokens == [s.tokens[0]] + s.tokens[1..];
    }
  }

  /** A worker that will look does, or has put the token back, or has found another one to look, or
      one that has looked in vain. */
  lemma LookerKept(s: State, t: nat, c: nat)
    requires Enabled(s, t) && c < |s.tasks| && ContextOk(s, c) && WillLook(s.pc[t], c)
    ensures var s' := Access(s, t);
            || s'.tasks[c] == [] || c in s'.tokens || WillLook(s'.pc[t], c)
            || (s.pc[t] == Perform(c) && s.busy[c]
               && (s.pc[s.owner[c]] == Clear(c, false) || WillLook(s'.pc[s.owner[c]], c)))
  {
    if s.pc[t] == Push(c, true) {
      assert Access(s, t).tokens[|s.tokens|] == c;
    }
  }

  lemma WorksStrands(s: State, t: nat, c: nat, s': State)
    requires Inv(s) && Works(s, t, s') && c < |s.tasks| && !Stranded(s, c)
    ensures Stranded(s', c) <==> Misses(s, t, c)
  {
    hide ContextOk, WillLook;
    assert ContextOk(s, c);
    if Misses(s, t, c) {
      NobodyLooks(s, t, c, s');
    } else if s'.tasks[c] != [] {
      if c in s.tokens {
        TokenKept(s, t, c);
      } else if Notify(c) !in s.calls {
        NeverQueues(s, t, c);
        var u :| 0 <= u < |s.pc| && WillLook(s.pc[u], c);
        if u != t {
          assert WillLook(s'.pc[u], c);
        } else {
          OnlyLooker(s, t, c, s');
        }
      }
    }
  }

  lemma NobodyLooks(s: State, t: nat, c: nat, s': State)
    requires Misses(s, t, c) && Works(s, t, s')
    ensures Stranded(s', c)
  {
    forall u | 0 <= u < |s'.pc| ensures !WillLook(s'.pc[u], c) {
      assert u != t ==> s'.pc[u] == s.pc[u];
    }
  }

  /** A worker's step adds no task. */
  lemma NeverQueues(s: State, t: nat, c: nat)
    requires Enabled(s, t) && c < |s.tasks|
    ensures |Access(s, t).tasks| == |s.tasks| && (Access(s, t).tasks[c] != [] ==> s.tasks[c] != [])
  {
  }

  lemma OnlyLooker(s: State, t: nat, c: nat, s': State)
    requires Inv(s) && Works(s, t, s') && c < |s.tasks| && WillLook(s.pc[t], c)
    requires s'.tasks[c] != [] && s.tasks[c] != [] && c !in s.tokens && Notify(c) !in s.calls && !Misses(s, t, c)
    ensures Covered(s', c)
  {
    hide WillLook, ContextOk;
    assert ContextOk(s, c);
    LookerKept(s, t, c);
    if s.pc[t] == Perform(c) && s.busy[c] {
      Owned(s, c);
      if s.pc[s.owner[c]] == Clear(c, false) {
        var u :| 0 <= u < |s.pc| && u != t && WillLook(s.pc[u], c);
        assert WillLook(s'.pc[u], c);
      }
    }
  }

  lemma Owned(s: State, c: nat)
    requires Sizes(s) && c < |s.tasks| && ContextOk(s, c) && s.busy[c]
    ensures 0 <= s.owner[c] < |s.pc|
  {
  }

  lemma SchedulesCovers(s: State, k: nat, d: nat, job: Job, c: nat, s': State)
    requires Schedules(s, k, d, job, s') && !Stranded(s, c)
    ensures !Stranded(s', c)
  {
    assert s'.calls[k] == Notify(d);
    if Notify(c) in s.calls {
      var j :| 0 <= j < |s.calls| && s.calls[j] == Notify(c);
      assert s'.calls[j] == Notify(c);
    }
  }

  lemma NotifiesCovers(s: State, k: nat, c: nat, s': State)
    requires Notifies(s, k, s') && !Stranded(s, c)
    ensures !Stranded(s', c)
  {
    assert s'.tokens[|s.tokens|] == s.calls[k].c;
    if Notify(c) in s.calls && c != s.calls[k].c {
      var j :| 0 <= j < |s.calls| && s.calls[j] == Notify(c);
      assert s'.calls[j] == Notify(c);
    }
  }

  /** A step strands a context exactly if it is that of a worker that misses the queued task: the last
      token is thrown away because of a flag held by a worker that has already found the queue
      empty. */
  lemma StrandedByTheWindow(s: State, c: nat, s': State)
    requires Reachable(s) && Next(s, s') && c < |s.tasks| && !Stranded(s, c)
    ensures Stranded(s', c) <==> exists t: nat :: Works(s, t, s') && Misses(s, t, c)
  {
    ReachableInv(s);
    hide Inv, Works, Schedules, Notifies, Stranded, Misses;
    if t: nat :| Works(s, t, s') {
      WorksStrands(s, t, c, s');
      if u: nat :| Works(s, u, s') && Misses(s, u, c) {
        WorksStrands(s, u, c, s');
      }
    } else if k: nat, d: nat, job :| Schedules(s, k, d, job, s') {
      SchedulesCovers(s, k, d, job, c, s');
    } else {
      var k: nat :| Notifies(s, k, s');
      NotifiesCovers(s, k, c, s');
    }
  }

  /** A stranded task stays where it is until its context is scheduled on again. */
  lemma StrandedStays(s: State, c: nat, s': State)
    requires Reachable(s) && c < |s.tasks| && s.tasks[c] != [] && !Covered(s, c) && Next(s, s')
    requires forall k: nat, job :: !Schedules(s, k, c, job, s')
    ensures c < |s'.tasks| && s'.tasks[c] == s.tasks[c] && !Covered(s', c)
  {
    hide Inv, Works, Schedules, Notifies, Covered;
    if t: nat :| Works(s, t, s') {
      WorksStranded(s, t, c, s');
    } else if k: nat, d: nat, job :| Schedules(s, k, d, job, s') {
      SchedulesStranded(s, k, d, job, c, s');
    } else {
      var k: nat :| Notifies(s, k, s');
      NotifiesStranded(s, k, c, s');
    }
  }

  lemma WorksStranded(s: State, t: nat, c: nat, s': State)
    requires c < |s.tasks| && s.tasks[c] != [] && !Covered(s, c) && Works(s, t, s')
    ensures c < |s'.tasks| && s'.tasks[c] == s.tasks[c] && !Covered(s', c)
  {
    assert !WillLook(s.pc[t], c);
    forall u | 0 <= u < |s'.pc| ensures !WillLook(s'.pc[u], c) {
      assert !WillLook(s.pc[u], c);
    }
  }

  lemma SchedulesStranded(s: State, k: nat, d: nat, job: Job, c: nat, s': State)
    requires c < |s.tasks| && !Covered(s, c) && Schedules(s, k, d, job, s') && d != c
    ensures c < |s'.tasks| && s'.tasks[c] == s.tasks[c] && !Covered(s', c)
  {
  }

  lemma NotifiesStranded(s: State, k: nat, c: nat, s': State)
    requires c < |s.tasks| && !Covered(s, c) && Notifies(s, k, s')
    ensures c < |s'.tasks| && s'.tasks[c] == s.tasks[c] && !Covered(s', c)
  {
    assert s.calls[k] in s.calls;
  }

  // ---------------------------------------------------- a task does get lost

  lemma Reached(s: State, s': State)
    requires Reachable(s) && Next(s, s')
    ensures Reachable(s')
  {
    hide Next, Init;
    var run :| Run(run) && run[|run| - 1] == s;
    var longer := run + [s'];
    forall i | 0 <= i < |longer| - 1 ensures Next(longer[i], longer[i + 1]) {
      if i + 1 < |run| {
        assert longer[i] == run[i] && longer[i + 1] == run[i + 1];
      } else {
        assert longer[i] == s && longer[i + 1] == s';
      }
    }
    assert longer[0] == run[0];
    assert Run(longer) && longer[|longer| - 1] == s';
  }

  lemma Goes(s: State, t: nat) returns (s': State)
    requires Reachable(s) && Enabled(s, t)
    ensures s' == Access(s, t) && Reachable(s')
  {
    hide Reachable, Access;
    s' := Access(s, t);
    assert Works(s, t, s');
    Reached(s, s');
  }

  /** One call of schedule, on context 0, by itself. */
  lemma Called(s: State, job: Job) returns (s': State)
    requires Reachable(s) && Sizes(s) && |s.tasks| == 1 && s.calls == [Out] && s.lock == -1
    ensures Reachable(s') && Sizes(s')
    ensures s' == s.(calls := s'.calls, tokens := s.tokens + [0], tasks := [s.tasks[0] + [job]],
            scheduled := s'.scheduled)
    ensures s'.calls == [Out] && |s'.scheduled| == 1
  {
    hide Reachable;
    var c: nat := 0;
    var s1 := s.(calls := s.calls[0 := Notify(c)], tasks := s.tasks[0 := s.tasks[0] + [job]],
                 scheduled := s.scheduled[0 := s.scheduled[0] + [job]]);
    assert Schedules(s, 0, 0, job, s1);
    Reached(s, s1);
    s' := s1.(calls := s1.calls[0 := Out], tokens := s1.tokens + [0]);
    assert Notifies(s1, 0, s');
    Reached(s1, s');
    assert s.tasks[0 := s.tasks[0] + [job]] == [s.tasks[0] + [job]];
  }

  /** Worker t, idle, takes the only token and gets as far as its CAS. */
  lemma TakesToken(s: State, t: nat) returns (s': State)
    requires Reachable(s) && Sizes(s) && |s.tasks| == 1 && t < |s.pc| && s.pc[t] == Idle && s.lock == -1
             && s.tokens == [0]
    ensures Reachable(s') && s' == s.(pc := s.pc[t := Perform(0)], tokens := [])
  {
    hide Reachable;
    var s1 := Goes(s, t);
    s' := Goes(s1, t);
    assert s1.pc == s.pc[t := Locked];
    assert s'.pc == s.pc[t := Perform(0)];
    assert s'.tokens == [];
  }

  /** Worker 0 runs the one task and puts the token back. */
  lemma RunsTask(s: State) returns (s': State)
    requires Reachable(s) && Sizes(s) && |s.tasks| == 1 && |s.tasks[0]| == 1 && !s.busy[0] && s.owner[0] == -1
             && s.tokens == []
    requires |s.pc| > 0 && s.pc[0] == Perform(0) && s.lock == -1 && s.calls == [Out]
    ensures Reachable(s') && Sizes(s') && |s'.tasks| == 1 && s'.tasks[0] == [] && !s'.busy[0] && s'.owner[0] == -1
            && s'.tokens == [0]
    ensures s'.pc == s.pc[0 := Locked] && s'.calls == [Out]
  {
    hide Reachable;
    var s1 := Goes(s, 0);
    var s2 := Goes(s1, 0);
    assert s2.pc[0].Running? && s2.tasks[0] == [];
    var s3 := Goes(s2, 0);
    var s4 := Goes(s3, 0);
    assert s4.pc[0] == Relock(0, true) && !s4.busy[0];
    var s5 := Goes(s4, 0);
    s' := Goes(s5, 0);
  }

  /** It takes the token again and finds nothing. */
  lemma FindsNothing(s: State) returns (s': State)
    requires Reachable(s) && Sizes(s) && |s.tasks| == 1 && s.tasks[0] == [] && !s.busy[0] && s.owner[0] == -1
             && s.tokens == [0]
    requires |s.pc| > 0 && s.pc[0] == Locked && s.calls == [Out]
    ensures Reachable(s') && Sizes(s') && |s'.tasks| == 1 && s'.tasks[0] == [] && s'.busy[0] && s'.tokens == []
            && s'.owner[0] == 0
    ensures s'.pc == s.pc[0 := Clear(0, false)] && s'.lock == -1 && s'.calls == [Out]
  {
    hide Reachable;
    var s1 := Goes(s, 0);
    var s2 := Goes(s1, 0);
    assert s2.pc[0] == Take(0) && s2.tasks[0] == [];
    s' := Goes(s2, 0);
  }

  /** Two workers or more, one context, two calls of schedule: the second task is never looked at. */
  lemma TaskStranded(w: nat)
    requires w >= 2
    ensures exists s :: Reachable(s) && |s.pc| == w && |s.tasks| == 1 && s.tasks[0] != [] && !Covered(s, 0)
  {
    hide Reachable;
    var s0 := State(seq(w, _ => Idle), [Out], -1, [], [[]], [false], [-1], [[]], [[]], [0]);
    assert Reachable(s0) by { ReachedAtOnce(s0); }
    var s1 := Called(s0, 7);
    var s2 := TakesToken(s1, 0);
    var s' := RunsTask(s2);
    var s3 := FindsNothing(s');
    var s4 := Called(s3, 8);
    var s5 := TakesToken(s4, 1);
    var s6 := Goes(s5, 1);
    var s7 := Goes(s6, 0);
    assert s7.pc == s0.pc[0 := Relock(0, false)][1 := Relock(0, false)];
    assert s7.tasks[0] == [8] && !Covered(s7, 0);
  }

  lemma {:induction false} OneWorkerCovers(run: seq<State>, c: nat)
    requires Run(run) && |run[|run| - 1].pc| <= 1
    ensures !Stranded(run[|run| - 1], c)
  {
    hide Inv, Next, Stranded, Misses;
    var s' := run[|run| - 1];
    if |run| == 1 {
      assert !Stranded(s', c) by { NoTasksYet(s', c); }
    } else {
      var shorter, s := run[..|run| - 1], run[|run| - 2];
      assert Next(s, run[|run| - 2 + 1]);
      SameThreads(s, s');
      OneWorkerCovers(shorter, c);
      assert Reachable(s) by { assert shorter[|shorter| - 1] == s; }
      if c < |s.tasks| {
        StrandedByTheWindow(s, c, s');
        forall t: nat ensures !Misses(s, t, c) { OneMissesNot(s, t, c); }
      }
      NoNewContexts(s, c, s');
    }
  }

  lemma NoTasksYet(s: State, c: nat)
    requires Init(s)
    ensures !Stranded(s, c)
  {
  }

  lemma SameThreads(s: State, s': State)
    requires Next(s, s')
    ensures |s'.pc| == |s.pc| && |s'.tasks| == |s.tasks|
  {
  }

  lemma NoNewContexts(s: State, c: nat, s': State)
    requires Next(s, s')
    ensures Stranded(s', c) ==> c < |s.tasks|
  {
    hide Covered;
    SameThreads(s, s');
  }

  lemma OneMissesNot(s: State, t: nat, c: nat)
    requires |s.pc| <= 1
    ensures !Misses(s, t, c)
  {
  }

  /** With how many workers no task is ever stranded: with one at most. */
  lemma WorkersExact(w: nat)
    ensures (forall s: State, c: nat :: Reachable(s) && |s.pc| == w && c < |s.tasks| && s.tasks[c] != [] ==>
            Covered(s, c))
            <==> w <= 1
  {
    hide Next, Init, Covered;
    if w <= 1 {
      forall s: State, c: nat | Reachable(s) && |s.pc| == w && c < |s.tasks| && s.tasks[c] != [] ensures Covered(s, c) {
        var run :| Run(run) && run[|run| - 1] == s;
        OneWorkerCovers(run, c);
      }
    } else {
      TaskStranded(w);
    }
  }

  lemma ReachedAtOnce(s: State)
    requires Init(s)
    ensures Reachable(s)
  {
    hide Init;
    var run := [s];
    assert Run(run) && run[|run| - 1] == s;
  }
}
