/** Continuations of a task: threads that add one race with the thread that finishes or cancels the
    task.  The list is one atomic word: nothing, a single continuation, or a vector guarded by a
    mutex; and a bit that says it has been locked and flushed for good.

    Adder c adds continuation c (one call of add_continuation); the completer runs finish, or
    cancel_base, once.  Each step is one access to shared memory; a weak compare-exchange may fail
    for no reason. */
module Continuations {

  type Cont = nat

  datatype Ptr = Null | Task(c: Cont) | Vec(v: nat)

  /** internal_data: the pointer and the two flags. */
  datatype Word = Word(ptr: Ptr, locked: bool, isVector: bool)

  datatype Lock = Free | HeldBy(c: Cont) | HeldByCompleter

  datatype VectorData = VectorData(items: seq<Cont>, lock: Lock)

  datatype Option<T> = None | Some(value: T)

  datatype Adder =
    | CheckState                                   // add_continuation: load the task state
    | LoadData                                     // try_add: load the word
    | TryCas(seen: Word, cached: Option<nat>)      //   CAS the word
    | LockVector(v: nat)                           //   lock the mutex
    | CheckLocked(v: nat)                          //   load the word again
    | PushBack(v: nat)                             //   append to the vector
    | Unlock(v: nat, added: bool)                  //   unlock
    | RunDirect                                    // run_continuation
    | Added

  datatype Completer =
    | Running
    | StoreState                                   // store completed or canceled
    | LoadWord                                     // flush_and_lock: load the word
    | TryLock(seen: Word)                          //   CAS the flag in
    | LockList(v: nat)                             //   lock the mutex
    | Flush(v: nat, k: nat)                        //   schedule element k
    | Clear(v: nat)                                //   clear the vector and unlock
    | FlushInline(c: Cont)                         //   schedule the single element
    | Finished

  datatype State = State(
    final: bool, word: Word, vectors: seq<VectorData>,
    adders: seq<Adder>, completer: Completer,
    scheduled: seq<Cont>)

  ghost predicate Init(s: State) {
    && !s.final && s.word == Word(Null, false, false) && s.vectors == []
    && (forall c :: 0 <= c < |s.adders| ==> s.adders[c] == CheckState)
    && s.completer == Running && s.scheduled == []
  }

  function Goes(s: State, c: Cont, p: Adder): State
    requires c < |s.adders|
  {
    s.(adders := s.adders[c := p])
  }

  /** The head of the compare-exchange loop of try_add, with the word as loaded or as the failed
      exchange reported it, and the vector kept from an earlier turn. */
  function Consider(s: State, c: Cont, seen: Word, cached: Option<nat>): State
    requires c < |s.adders|
  {
    if seen.locked then Goes(s, c, RunDirect)
    else if seen.isVector then (if seen.ptr.Vec? then Goes(s, c, LockVector(seen.ptr.v)) else s)
    else if seen.ptr.Task? && cached.None? then
      Goes(s, c, TryCas(seen, Some(|s.vectors|))).(vectors := s.vectors + [VectorData([seen.ptr.c, c], Free)])
    else Goes(s, c, TryCas(seen, cached))
  }

  function NewWord(c: Cont, seen: Word, cached: Option<nat>): Word {
    if seen.ptr.Null? || cached.None? then Word(Task(c), false, false) else Word(Vec(cached.value), false, true)
  }

  ghost predicate AdderStep(s: State, c: Cont, s': State)
    requires c < |s.adders|
  {
    match s.adders[c]
    case CheckState => s' == Goes(s, c, if s.final then RunDirect else LoadData)
    case LoadData => s' == Consider(s, c, s.word, None)
    case TryCas(seen, cached) =>
      || (s.word == seen && s' == Goes(s, c, Added).(word := NewWord(c, seen, cached)))
      || s' == Consider(s, c, s.word, cached)
    case LockVector(v) =>
      && v < |s.vectors| && s.vectors[v].lock == Free
      && s' == Goes(s, c, CheckLocked(v)).(vectors := s.vectors[v := s.vectors[v].(lock := HeldBy(c))])
    case CheckLocked(v) => s' == Goes(s, c, if s.word.locked then Unlock(v, false) else PushBack(v))
    case PushBack(v) =>
      && v < |s.vectors|
      && s' == Goes(s, c, Unlock(v, true)).(vectors := s.vectors[v := s.vectors[v].(items := s.vectors[v].items + [c])])
    case Unlock(v, added) =>
      && v < |s.vectors|
      && s' == Goes(s, c, if added then Added else RunDirect).(vectors := s.vectors[v := s.vectors[v].(lock := Free)])
    case RunDirect => s' == Goes(s, c, Added).(scheduled := s.scheduled + [c])
    case Added => s' == s
  }

  function AfterLock(seen: Word): Completer {
    if seen.isVector && seen.ptr.Vec? then LockList(seen.ptr.v)
    else if seen.ptr.Task? then FlushInline(seen.ptr.c) else Finished
  }

  ghost predicate CompleterStep(s: State, s': State) {
    match s.completer
    case Running => s' == s.(completer := StoreState)
    case StoreState => s' == s.(completer := LoadWord, final := true)
    case LoadWord => s' == s.(completer := TryLock(s.word))
    case TryLock(seen) =>
      || (s.word == seen && s' == s.(completer := AfterLock(seen), word := seen.(locked := true)))
      || s' == s.(completer := TryLock(s.word))
    case LockList(v) =>
      && v < |s.vectors| && s.vectors[v].lock == Free
      && s' == s.(completer := Flush(v, 0), vectors := s.vectors[v := s.vectors[v].(lock := HeldByCompleter)])
    case Flush(v, k) =>
      && v < |s.vectors|
      && (if k < |s.vectors[v].items|
          then s' == s.(completer := Flush(v, k + 1), scheduled := s.scheduled + [s.vectors[v].items[k]])
          else s' == s.(completer := Clear(v)))
    case Clear(v) =>
      && v < |s.vectors|
      && s' == s.(completer := Finished, vectors := s.vectors[v := VectorData([], Free)])
    case FlushInline(c) => s' == s.(completer := Finished, scheduled := s.scheduled + [c])
    case Finished => s' == s
  }

  ghost predicate Next(s: State, s': State) {
    CompleterStep(s, s') || exists c: Cont :: c < |s.adders| && AdderStep(s, c, s')
  }

  ghost predicate Run(run: seq<State>) {
    && |run| > 0 && Init(run[0])
    && (forall i :: 0 <= i < |run| - 1 ==> Next(run[i], run[i + 1]))
  }

  // --------------------------------------------------------------- invariant

  predicate Locked(p: Completer) {
    p.LockList? || p.Flush? || p.Clear? || p.FlushInline? || p.Finished?
  }

  /** The continuations in the list that are still to be scheduled by the flush. */
  function Waiting(s: State): seq<Cont> {
    match s.word.ptr
    case Null => []
    case Task(c) => if s.completer.Finished? then [] else [c]
    case Vec(v) =>
      if v < |s.vectors| then
        (match s.completer
         case Flush(_, k) => if k <= |s.vectors[v].items| then s.vectors[v].items[k..] else []
         case Clear(_) => []
         case _ => s.vectors[v].items)
      else []
  }

  /** The adder has passed its continuation on. */
  predicate HandedOver(p: Adder) {
    p.Added? || (p.Unlock? && p.added)
  }

  ghost predicate WordOk(s: State) {
    && (s.word.isVector <==> s.word.ptr.Vec?)
    && (s.word.ptr.Vec? ==> s.word.ptr.v < |s.vectors|)
    && (s.word.locked <==> Locked(s.completer))
  }

  ghost predicate CompleterOk(s: State) {
    && (!s.completer.Running? && !s.completer.StoreState? ==> s.final)
    && match s.completer
       case TryLock(seen) => seen.isVector == seen.ptr.Vec? && !seen.locked
       case LockList(v) => s.word.ptr == Vec(v)
       case Flush(v, k) =>
         s.word.ptr == Vec(v) && v < |s.vectors| && k <= |s.vectors[v].items| && s.vectors[v].lock == HeldByCompleter
       case Clear(v) => s.word.ptr == Vec(v) && v < |s.vectors| && s.vectors[v].lock == HeldByCompleter
       case FlushInline(c) => s.word.ptr == Task(c)
       case Finished => Waiting(s) == []
       case _ => true
  }

  /** The vector kept across turns is private to c, and holds the element that is still the only one
      as long as there is no vector in the word. */
  ghost predicate CachedOk(s: State, c: Cont, v: nat) {
    && v < |s.vectors| && |s.vectors[v].items| == 2 && s.vectors[v].items[1] == c
    && s.vectors[v].lock == Free
    && s.word.ptr != Vec(v) && s.word.ptr != Null
    && (s.word.ptr.Task? ==> s.word.ptr.c == s.vectors[v].items[0])
  }

  ghost predicate AdderOk(s: State, c: Cont)
    requires c < |s.adders|
  {
    match s.adders[c]
    case TryCas(seen, cached) =>
      && !seen.locked && !seen.isVector && !seen.ptr.Vec?
      && (cached.Some? ==> CachedOk(s, c, cached.value))
      && (seen.ptr.Task? ==> cached.Some? && seen.ptr.c == s.vectors[cached.value].items[0])
      && (seen.ptr.Null? ==> cached.None?)
    case LockVector(v) => s.word.ptr == Vec(v)
    case CheckLocked(v) => s.word.ptr == Vec(v) && v < |s.vectors| && s.vectors[v].lock == HeldBy(c)
    case PushBack(v) => s.word.ptr == Vec(v) && v < |s.vectors| && s.vectors[v].lock == HeldBy(c)
    case Unlock(v, added) =>
      && s.word.ptr == Vec(v) && v < |s.vectors| && s.vectors[v].lock == HeldBy(c)
      && (!added ==> s.final)
    case RunDirect => s.final
    case _ => true
  }

  ghost function Places(s: State): multiset<Cont> {
    multiset(s.scheduled) + multiset(Waiting(s))
  }

  /** A continuation that its adder has passed on is in one place, once: waiting or scheduled. */
  ghost predicate OncePlaced(s: State, c: Cont)
    requires c < |s.adders|
  {
    Places(s)[c] == if HandedOver(s.adders[c]) then 1 else 0
  }

  ghost predicate PushAllowed(s: State, c: Cont)
    requires c < |s.adders|
  {
    s.adders[c].PushBack? ==> !Locked(s.completer) || s.completer.LockList?
  }

  ghost predicate Inv(s: State) {
    && WordOk(s) && CompleterOk(s)
    && (s.scheduled != [] ==> s.final)
    && (forall c :: 0 <= c < |s.adders| ==> AdderOk(s, c) && PushAllowed(s, c) && OncePlaced(s, c))
  }

  /** From s to s' the vectors that are not in the word, and the locks u holds, stay; and the
      pointer is replaced only by the vector of another adder, or filled. */
  ghost predicate KeepsFor(s: State, s': State, u: Cont) {
    && (s.final ==> s'.final)
    && |s.vectors| <= |s'.vectors|
    && (forall v :: 0 <= v < |s.vectors| ==>
          || s'.vectors[v] == s.vectors[v]
          || (s.word.ptr == Vec(v) && (s.vectors[v].lock == HeldBy(u) ==> s'.vectors[v].lock == HeldBy(u))))
    && (|| s'.word.ptr == s.word.ptr
        || s.word.ptr == Null
        || (s.word.ptr.Task? && s'.word.ptr.Vec? && TakesVector(s, s'.word.ptr.v, u)))
  }

  predicate TakesVector(s: State, v: nat, u: Cont) {
    v < |s.vectors| && |s.vectors[v].items| == 2 && s.vectors[v].items[1] != u
  }

  lemma OtherAdder(s: State, s': State, u: Cont)
    requires WordOk(s) && u < |s.adders| == |s'.adders| && AdderOk(s, u) && s'.adders[u] == s.adders[u]
    requires KeepsFor(s, s', u)
    ensures AdderOk(s', u)
  {
  }

  /** A step of the completer schedules the next of what was waiting, or nothing. */
  lemma CompleterMoves(s: State, s': State)
    requires WordOk(s) && CompleterOk(s) && CompleterStep(s, s')
    ensures s'.adders == s.adders
    ensures (Waiting(s') == Waiting(s) && s'.scheduled == s.scheduled)
         || (exists x: Cont :: Waiting(s) == [x] + Waiting(s') && s'.scheduled == s.scheduled + [x])
  {
    match s.completer {
      case Flush(v, k) =>
        var items := s.vectors[v].items;
        if k < |items| {
          assert items[k..] == [items[k]] + items[k + 1..];
        } else {
          assert items[k..] == [];
        }
      case LockList(v) => assert s.vectors[v].items[0..] == s.vectors[v].items;
      case FlushInline(c) => assert Waiting(s) == [c] + Waiting(s');
      case _ =>
    }
  }

  lemma CompleterPlaces(s: State, s': State)
    requires WordOk(s) && CompleterOk(s) && CompleterStep(s, s')
    ensures Places(s') == Places(s) && s'.adders == s.adders
  {
    hide WordOk, CompleterOk, CompleterStep, Waiting;
    CompleterMoves(s, s');
    if x: Cont :| Waiting(s) == [x] + Waiting(s') && s'.scheduled == s.scheduled + [x] {
      assert multiset([x] + Waiting(s')) == multiset{x} + multiset(Waiting(s'));
    }
  }

  lemma CompleterParts(s: State, s': State)
    requires WordOk(s) && CompleterOk(s) && (s.scheduled != [] ==> s.final) && CompleterStep(s, s')
    ensures WordOk(s') && CompleterOk(s') && (s'.scheduled != [] ==> s'.final)
  {
  }

  lemma CompleterInv(s: State, s': State)
    requires Inv(s) && CompleterStep(s, s')
    ensures Inv(s')
  {
    hide WordOk, CompleterOk, AdderOk, CompleterStep, Places, PushAllowed;
    CompleterPlaces(s, s');
    CompleterParts(s, s');
    forall c | 0 <= c < |s'.adders| ensures AdderOk(s', c) && PushAllowed(s', c) && OncePlaced(s', c) {
      assert AdderOk(s, c) && PushAllowed(s, c) && OncePlaced(s, c);
      CompleterKeeps(s, s', c);
    }
  }

  lemma CompleterKeeps(s: State, s': State, c: Cont)
    requires WordOk(s) && CompleterOk(s) && CompleterStep(s, s')
    requires c < |s.adders| && AdderOk(s, c) && PushAllowed(s, c)
    ensures |s'.adders| == |s.adders| && AdderOk(s', c) && PushAllowed(s', c)
  {
    if !s.completer.TryLock? {
      OtherAdder(s, s', c);
    }
  }

  lemma AdderParts(s: State, c: Cont, s': State)
    requires WordOk(s) && CompleterOk(s) && (s.scheduled != [] ==> s.final)
    requires c < |s.adders| && AdderOk(s, c) && PushAllowed(s, c) && AdderStep(s, c, s')
    ensures WordOk(s') && CompleterOk(s') && (s'.scheduled != [] ==> s'.final)
  {
  }

  /** The step at which adder c passes its continuation on. */
  predicate PassesOn(s: State, c: Cont, s': State) {
    c < |s.adders| == |s'.adders| && !HandedOver(s.adders[c]) && HandedOver(s'.adders[c])
  }

  ghost predicate Moves(s: State, c: Cont, s': State) {
    && c < |s.adders| == |s'.adders| && s'.adders == s.adders[c := s'.adders[c]]
    && (HandedOver(s.adders[c]) ==> HandedOver(s'.adders[c]))
    && (!PassesOn(s, c, s') ==> Waiting(s') == Waiting(s) && s'.scheduled == s.scheduled)
    && (PassesOn(s, c, s') ==>
          || (Waiting(s') == Waiting(s) + [c] && s'.scheduled == s.scheduled)
          || (Waiting(s') == Waiting(s) && s'.scheduled == s.scheduled + [c]))
  }

  lemma TryCasMoves(s: State, c: Cont, s': State)
    requires WordOk(s) && CompleterOk(s)
    requires c < |s.adders| && AdderOk(s, c) && AdderStep(s, c, s') && s.adders[c].TryCas?
    ensures Moves(s, c, s')
  {
    if s.adders[c].cached.Some? {
      var items := s.vectors[s.adders[c].cached.value].items;
      assert items == [items[0]] + [c];
    }
  }

  lemma AdderMoves(s: State, c: Cont, s': State)
    requires WordOk(s) && CompleterOk(s)
    requires c < |s.adders| && AdderOk(s, c) && PushAllowed(s, c) && AdderStep(s, c, s')
    ensures Moves(s, c, s')
  {
    if s.adders[c].TryCas? {
      TryCasMoves(s, c, s');
    }
  }

  /** A step of adder c leaves what was placed in place, and adds c when it is passed on. */
  lemma AdderPlaces(s: State, c: Cont, s': State)
    requires WordOk(s) && CompleterOk(s)
    requires c < |s.adders| && AdderOk(s, c) && PushAllowed(s, c) && AdderStep(s, c, s')
    ensures |s'.adders| == |s.adders| && s'.adders == s.adders[c := s'.adders[c]]
    ensures HandedOver(s.adders[c]) ==> HandedOver(s'.adders[c])
    ensures Places(s') == Places(s) + (if PassesOn(s, c, s') then multiset{c} else multiset{})
  {
    hide WordOk, CompleterOk, AdderOk, AdderStep, Waiting;
    AdderMoves(s, c, s');
    assert multiset(Waiting(s) + [c]) == multiset(Waiting(s)) + multiset{c};
    assert multiset(s.scheduled + [c]) == multiset(s.scheduled) + multiset{c};
  }

  lemma AdderOwn(s: State, c: Cont, s': State)
    requires WordOk(s) && CompleterOk(s)
    requires c < |s.adders| && AdderOk(s, c) && PushAllowed(s, c) && AdderStep(s, c, s')
    ensures |s'.adders| == |s.adders| && AdderOk(s', c) && PushAllowed(s', c)
  {
  }

  lemma AdderKeeps(s: State, c: Cont, s': State, u: Cont)
    requires WordOk(s) && CompleterOk(s) && c < |s.adders| && AdderOk(s, c) && AdderStep(s, c, s')
    requires u < |s.adders| && u != c && AdderOk(s, u) && PushAllowed(s, u)
    ensures |s'.adders| == |s.adders| && AdderOk(s', u) && PushAllowed(s', u)
  {
    assert KeepsFor(s, s', u);
    OtherAdder(s, s', u);
  }

  lemma AdderInv(s: State, c: Cont, s': State)
    requires Inv(s) && c < |s.adders| && AdderStep(s, c, s')
    ensures Inv(s')
  {
    hide WordOk, CompleterOk, AdderOk, AdderStep, Places, PushAllowed;
    assert AdderOk(s, c) && PushAllowed(s, c) && OncePlaced(s, c);
    AdderParts(s, c, s');
    AdderPlaces(s, c, s');
    AdderOwn(s, c, s');
    forall u | 0 <= u < |s'.adders| ensures AdderOk(s', u) && PushAllowed(s', u) && OncePlaced(s', u) {
      assert AdderOk(s, u) && PushAllowed(s, u) && OncePlaced(s, u);
      if u != c {
        AdderKeeps(s, c, s', u);
      }
    }
  }

  lemma InitInv(s: State)
    requires Init(s)
    ensures Inv(s)
  {
  }

  lemma StepInv(s: State, s': State)
    requires Inv(s) && Next(s, s')
    ensures Inv(s')
  {
    hide Inv, CompleterStep, AdderStep;
    if CompleterStep(s, s') {
      CompleterInv(s, s');
    } else {
      var c: Cont :| c < |s.adders| && AdderStep(s, c, s');
      AdderInv(s, c, s');
    }
  }

  lemma {:induction false} RunInv(run: seq<State>, i: nat)
    requires Run(run) && i < |run|
    ensures Inv(run[i])
  {
    hide Inv, CompleterStep, AdderStep;
    if i == 0 {
      InitInv(run[0]);
    } else {
      RunInv(run, i - 1);
      assert Next(run[i - 1], run[i - 1 + 1]);
      StepInv(run[i - 1], run[i]);
    }
  }

  // ------------------------------------------------------------ main results

  ghost predicate Reachable(s: State) {
    exists run: seq<State> :: Run(run) && run[|run| - 1] == s
  }

  lemma ReachableInv(s: State)
    requires Reachable(s)
    ensures Inv(s)
  {
    hide Inv;
    var run: seq<State> :| Run(run) && run[|run| - 1] == s;
    RunInv(run, |run| - 1);
  }

  /** A continuation is scheduled at most once in any run, and only once its adder has passed it on
      and the task is in its final state. */
  lemma AtMostOnce(s: State, c: Cont)
    requires Reachable(s) && c < |s.adders|
    ensures multiset(s.scheduled)[c] <= 1
    ensures c in s.scheduled ==> s.final && HandedOver(s.adders[c])
  {
    ReachableInv(s);
    assert OncePlaced(s, c);
  }

  /** When the completer and the adder of c are both through, c has been scheduled exactly once,
      whichever form the list had when they met. */
  lemma ExactlyOnce(s: State, c: Cont)
    requires Reachable(s) && c < |s.adders| && s.adders[c] == Added && s.completer == Finished
    ensures multiset(s.scheduled)[c] == 1
  {
    ReachableInv(s);
    assert OncePlaced(s, c);
  }

  /** A continuation added to a task whose state is final when the adder looks is run by the adder. */
  lemma RunsDirectly(s: State, c: Cont, s': State, s'': State)
    requires c < |s.adders| && s.adders[c] == CheckState && s.final && AdderStep(s, c, s')
    requires c < |s'.adders| && AdderStep(s', c, s'')
    ensures s''.scheduled == s.scheduled + [c] && c < |s''.adders| && s''.adders[c] == Added
  {
  }

  /** Until then nothing is lost: a continuation that has been passed on is scheduled or still in the
      list, exactly one of the two. */
  lemma NothingLost(s: State, c: Cont)
    requires Reachable(s) && c < |s.adders| && HandedOver(s.adders[c])
    ensures (c in s.scheduled) <==> (c !in Waiting(s))
  {
    ReachableInv(s);
    assert OncePlaced(s, c);
    assert (c in s.scheduled) <==> multiset(s.scheduled)[c] > 0;
    assert (c in Waiting(s)) <==> multiset(Waiting(s))[c] > 0;
  }

  /** The vector kept across turns never goes stale: at the moment an exchange with it succeeds, it
      holds the continuation that is in the word and the adder's own. */
  lemma CachedVectorIsFresh(s: State, c: Cont, seen: Word, v: nat)
    requires Reachable(s) && c < |s.adders| && s.adders[c] == TryCas(seen, Some(v)) && s.word == seen
    ensures v < |s.vectors| && seen.ptr.Task? && s.vectors[v].items == [seen.ptr.c, c]
  {
    ReachableInv(s);
    assert AdderOk(s, c);
  }

  /** Once the list has been flushed it stays empty: an adder that reaches the vector later finds
      the flag set. */
  lemma FlushedStaysEmpty(s: State, s': State)
    requires Reachable(s) && s.completer == Finished && Next(s, s')
    ensures Waiting(s) == [] && Waiting(s') == [] && s'.word == s.word
  {
    ReachableInv(s);
    StepInv(s, s');
    if !CompleterStep(s, s') {
      var c: Cont :| c < |s.adders| && AdderStep(s, c, s');
      assert AdderOk(s, c);
    }
  }

  // ------------------------------------------------------------ no deadlock

  /** Adder c is between locking and unlocking vector v. */
  predicate Inside(p: Adder, v: nat) {
    p == CheckLocked(v) || p == PushBack(v) || (p.Unlock? && p.v == v)
  }

  /** Whoever holds a mutex is where it will unlock it. */
  predicate LockOk(s: State, v: nat)
    requires v < |s.vectors|
  {
    match s.vectors[v].lock
    case Free => true
    case HeldBy(c) => c < |s.adders| && Inside(s.adders[c], v)
    case HeldByCompleter => (s.completer.Flush? && s.completer.v == v) || s.completer == Clear(v)
  }

  ghost predicate Locks(s: State) {
    forall v :: 0 <= v < |s.vectors| ==> LockOk(s, v)
  }

  /** An adder outside moves, making a vector of its own at most. */
  lemma OutsideLocks(s: State, c: Cont, s': State)
    requires Locks(s) && c < |s.adders| && AdderStep(s, c, s')
    requires s.adders[c].CheckState? || s.adders[c].LoadData? || s.adders[c].TryCas? || s.adders[c].RunDirect?
             || s.adders[c].Added?
    ensures Locks(s')
  {
    forall v | 0 <= v < |s'.vectors| ensures LockOk(s', v) {
      assert v < |s.vectors| ==> LockOk(s, v);
    }
  }

  lemma InsideLocks(s: State, c: Cont, s': State)
    requires Locks(s) && c < |s.adders| && AdderStep(s, c, s') && AdderOk(s, c)
    requires s.adders[c].LockVector? || s.adders[c].CheckLocked? || s.adders[c].PushBack? || s.adders[c].Unlock?
    ensures Locks(s')
  {
    forall v | 0 <= v < |s'.vectors| ensures LockOk(s', v) {
      assert LockOk(s, v);
    }
  }

  lemma AdderLocks(s: State, c: Cont, s': State)
    requires Inv(s) && Locks(s) && c < |s.adders| && AdderStep(s, c, s')
    ensures Locks(s')
  {
    assert AdderOk(s, c);
    hide Inv, Locks, AdderOk, AdderStep;
    if s.adders[c].LockVector? || s.adders[c].CheckLocked? || s.adders[c].PushBack? || s.adders[c].Unlock? {
      InsideLocks(s, c, s');
    } else {
      OutsideLocks(s, c, s');
    }
  }

  lemma CompleterLocks(s: State, s': State)
    requires Inv(s) && Locks(s) && CompleterStep(s, s')
    ensures Locks(s')
  {
    hide WordOk, AdderOk, OncePlaced, PushAllowed;
    forall v | 0 <= v < |s'.vectors| ensures LockOk(s', v) {
      assert LockOk(s, v);
    }
  }

  lemma {:induction false} RunLocks(run: seq<State>, i: nat)
    requires Run(run) && i < |run|
    ensures Locks(run[i])
  {
    hide Inv, CompleterStep, AdderStep;
    if i > 0 {
      RunLocks(run, i - 1);
      RunInv(run, i - 1);
      assert Next(run[i - 1], run[i - 1 + 1]);
      var s, s' := run[i - 1], run[i];
      if CompleterStep(s, s') {
        CompleterLocks(s, s');
      } else {
        var c: Cont :| c < |s.adders| && AdderStep(s, c, s');
        AdderLocks(s, c, s');
      }
    }
  }

  /** Past a mutex, an adder goes on to unlock it. */
  lemma InsideMoves(s: State, c: Cont, v: nat) returns (s': State)
    requires c < |s.adders| && v < |s.vectors| && Inside(s.adders[c], v)
    ensures AdderStep(s, c, s') && s' != s
  {
    match s.adders[c] {
      case CheckLocked(_) => s' := Goes(s, c, if s.word.locked then Unlock(v, false) else PushBack(v));
      case PushBack(_) =>
        var more := s.vectors[v].(items := s.vectors[v].items + [c]);
        s' := Goes(s, c, Unlock(v, true)).(vectors := s.vectors[v := more]);
      case Unlock(_, added) =>
        var free := s.vectors[v].(lock := Free);
        s' := Goes(s, c, if added then Added else RunDirect).(vectors := s.vectors[v := free]);
    }
    assert s'.adders[c] != s.adders[c];
  }

  /** After the flush an adder finds the flag set, or the mutex free or held by another adder. */
  lemma LateAdderMoves(s: State, c: Cont) returns (s': State, d: Cont)
    requires Inv(s) && Locks(s) && c < |s.adders| && s.adders[c] != Added && s.completer == Finished
    ensures d < |s.adders| && AdderStep(s, d, s') && s' != s
  {
    assert AdderOk(s, c) && WordOk(s) && CompleterOk(s);
    hide Inv, OncePlaced;
    d := c;
    match s.adders[c] {
      case CheckState => s' := Goes(s, c, if s.final then RunDirect else LoadData);
      case LoadData => s' := Goes(s, c, RunDirect);
      case TryCas(seen, cached) => s' := Goes(s, c, RunDirect);
      case LockVector(v) =>
        assert LockOk(s, v);
        if s.vectors[v].lock == Free {
          s' := Goes(s, c, CheckLocked(v)).(vectors := s.vectors[v := s.vectors[v].(lock := HeldBy(c))]);
        } else {
          d := s.vectors[v].lock.c;
          s' := InsideMoves(s, d, v);
        }
      case CheckLocked(v) => s' := InsideMoves(s, c, v);
      case PushBack(v) => s' := InsideMoves(s, c, v);
      case Unlock(v, _) => s' := InsideMoves(s, c, v);
      case RunDirect => s' := Goes(s, c, Added).(scheduled := s.scheduled + [c]);
    }
    assert s'.adders[d] != s.adders[d];
  }

  /** The completer can go on, or waits for the mutex of an adder that can. */
  lemma CompleterMovesOn(s: State) returns (s': State)
    requires Inv(s) && Locks(s) && s.completer != Finished
    ensures Next(s, s') && s' != s
  {
    assert WordOk(s) && CompleterOk(s);
    hide Inv, OncePlaced, AdderStep;
    match s.completer {
      case Running => s' := s.(completer := StoreState);
      case StoreState => s' := s.(completer := LoadWord, final := true);
      case LoadWord => s' := s.(completer := TryLock(s.word));
      case TryLock(seen) =>
        if s.word == seen {
          s' := s.(completer := AfterLock(seen), word := seen.(locked := true));
        } else {
          s' := s.(completer := TryLock(s.word));
        }
      case LockList(v) =>
        assert LockOk(s, v);
        if s.vectors[v].lock == Free {
          s' := s.(completer := Flush(v, 0), vectors := s.vectors[v := s.vectors[v].(lock := HeldByCompleter)]);
        } else {
          s' := InsideMoves(s, s.vectors[v].lock.c, v);
        }
      case Flush(v, k) =>
        if k < |s.vectors[v].items| {
          s' := s.(completer := Flush(v, k + 1), scheduled := s.scheduled + [s.vectors[v].items[k]]);
        } else {
          s' := s.(completer := Clear(v));
        }
      case Clear(v) => s' := s.(completer := Finished, vectors := s.vectors[v := VectorData([], Free)]);
      case FlushInline(c) => s' := s.(completer := Finished, scheduled := s.scheduled + [c]);
    }
  }

  /** No deadlock: until the completer and all adders are through, somebody can go on; in particular
      every mutex that is locked gets unlocked. */
  lemma NoDeadlock(s: State) returns (s': State)
    requires Reachable(s) && (s.completer != Finished || exists c :: 0 <= c < |s.adders| && s.adders[c] != Added)
    ensures Next(s, s') && s' != s
  {
    ReachableInv(s);
    var run: seq<State> :| Run(run) && run[|run| - 1] == s;
    RunLocks(run, |run| - 1);
    hide Inv, Locks, Run, AdderStep;
    if s.completer != Finished {
      s' := CompleterMovesOn(s);
    } else {
      var c :| 0 <= c < |s.adders| && s.adders[c] != Added;
      var d;
      s', d := LateAdderMoves(s, c);
    }
  }
}
