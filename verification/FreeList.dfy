/** The reference-counted lock-free free list of the queue's blocks.

    Threads interleave one atomic access at a time.  Each thread runs `add` or `try_get` over and
    over; its program counter names the next access and carries the locals it still needs.  The
    words in `refs` are 32-bit: the top bit is the should-be-on-free-list flag, the rest counts
    references.  `status` and `list` are history: no step looks at them to decide what to do. */
module FreeList {
  import opened Counting
  import opened Links

  const FLAG := 0x8000_0000
  const WORD := 0x1_0000_0000

  function FetchAdd(word: int, d: int): int {
    (word + d) % WORD
  }

  /** What the thread does once `add_knowing_refcount_is_zero` returns: leave `add`, or go on with
      the loop of `try_get` at the head it has in hand. */
  datatype After = Return | Loop(head: Link)

  datatype Pc =
    | Idle
    | AddFlag(n: Node)                              // add: fetch_add of the flag
    | LinkLoad(n: Node, after: After)               // add_knowing...: load the list head
    | LinkNext(n: Node, head: Link, after: After)   //   store the node's next
    | LinkRefs(n: Node, head: Link, after: After)   //   store 1 into the node's refs
    | LinkCas(n: Node, head: Link, after: After)    //   CAS the list head
    | LinkUndo(n: Node, head: Link, after: After)   //   CAS failed: fetch_add of the flag less one
    | GetHead                                       // try_get: load the list head
    | GetRefs(h: Node)                              //   load the head's refs
    | GetPin(h: Node, refs: int)                    //   CAS refs to refs + 1
    | GetNext(h: Node)                              //   load the head's next
    | GetCas(h: Node, next: Link)                   //   CAS the list head to next
    | GetTake(h: Node)                              //   got it: fetch_sub of 2
    | GetDrop(h: Node, head: Link)                  //   lost it: fetch_sub of 1

  /** Where a node is in its life. */
  datatype Status =
    | Out                 // handed out, or never added
    | Adding(t: nat)      // passed to add, flag not yet set
    | Waiting             // flagged, to be linked by whoever drops the last reference
    | Zero(t: nat)        // flagged with no references: thread t is linking it
    | Linking(t: nat)     // refs stored, thread t is about to CAS the head
    | Undoing(t: nat)     // that CAS failed
    | Listed
    | Taking(t: nat)      // unlinked by thread t, which still holds its two references

  datatype State = State(
    pc: seq<Pc>,
    head: Link,
    refs: seq<int>,
    next: seq<Link>,
    status: seq<Status>,
    list: seq<Node>)

  ghost predicate Init(s: State) {
    && |s.refs| == |s.next| == |s.status|
    && |s.pc| < FLAG - 1
    && s.head == Nil && s.list == []
    && (forall t :: 0 <= t < |s.pc| ==> s.pc[t] == Idle)
    && (forall n :: 0 <= n < |s.refs| ==> s.refs[n] == 0 && s.next[n] == Nil && s.status[n] == Out)
  }

  // ------------------------------------------------------------------ steps

  function Start(head: Link): Pc {
    match head case Nil => Idle case To(h) => GetRefs(h)
  }

  function Resume(after: After): Pc {
    match after case Return => Idle case Loop(head) => Start(head)
  }

  /** Begin an operation: add any node that is out, or try to get one. */
  ghost predicate Begin(s: State, t: nat, s': State)
    requires t < |s.pc|
  {
    && s.pc[t] == Idle
    && (|| s' == s.(pc := s.pc[t := GetHead])
        || (exists n: nat :: BeginAdd(s, t, n, s')))
  }

  ghost predicate BeginAdd(s: State, t: nat, n: Node, s': State)
    requires t < |s.pc|
  {
    && n < |s.status| && s.status[n] == Out
    && s' == s.(pc := s.pc[t := AddFlag(n)], status := s.status[n := Adding(t)])
  }

  predicate InRange(s: State, p: Pc) {
    && |s.refs| == |s.next| == |s.status|
    && (match p
        case Idle => true
        case GetHead => true
        case AddFlag(n) => n < |s.refs|
        case LinkLoad(n, _) => n < |s.refs|
        case LinkNext(n, _, _) => n < |s.refs|
        case LinkRefs(n, _, _) => n < |s.refs|
        case LinkCas(n, _, _) => n < |s.refs|
        case LinkUndo(n, _, _) => n < |s.refs|
        case GetRefs(h) => h < |s.refs|
        case GetPin(h, _) => h < |s.refs|
        case GetNext(h) => h < |s.refs|
        case GetCas(h, _) => h < |s.refs|
        case GetTake(h) => h < |s.refs|
        case GetDrop(h, _) => h < |s.refs|)
  }

  /** The state after thread t's next access; deterministic once an operation has begun. */
  function Access(s: State, t: nat): State
    requires t < |s.pc| && InRange(s, s.pc[t])
  {
    match s.pc[t]
    case Idle => s
    case AddFlag(n) =>
      var s1 := s.(refs := s.refs[n := FetchAdd(s.refs[n], FLAG)]);
      if s.refs[n] == 0
      then s1.(pc := s.pc[t := LinkLoad(n, Return)], status := s.status[n := Zero(t)])
      else s1.(pc := s.pc[t := Idle], status := s.status[n := Waiting])
    case LinkLoad(n, after) =>
      s.(pc := s.pc[t := LinkNext(n, s.head, after)])
    case LinkNext(n, head, after) =>
      s.(pc := s.pc[t := LinkRefs(n, head, after)], next := s.next[n := head])
    case LinkRefs(n, head, after) =>
      s.(pc := s.pc[t := LinkCas(n, head, after)], refs := s.refs[n := 1],
         status := s.status[n := Linking(t)])
    case LinkCas(n, head, after) =>
      if s.head == head
      then s.(pc := s.pc[t := Resume(after)], head := To(n),
              status := s.status[n := Listed], list := [n] + s.list)
      else s.(pc := s.pc[t := LinkUndo(n, s.head, after)], status := s.status[n := Undoing(t)])
    case LinkUndo(n, head, after) =>
      var s1 := s.(refs := s.refs[n := FetchAdd(s.refs[n], FLAG - 1)]);
      if s.refs[n] == 1
      then s1.(pc := s.pc[t := LinkNext(n, head, after)], status := s.status[n := Zero(t)])
      else s1.(pc := s.pc[t := Resume(after)], status := s.status[n := Waiting])
    case GetHead =>
      s.(pc := s.pc[t := Start(s.head)])
    case GetRefs(h) =>
      s.(pc := s.pc[t := if s.refs[h] % FLAG == 0 then GetHead else GetPin(h, s.refs[h])])
    case GetPin(h, refs) =>
      if s.refs[h] == refs
      then s.(pc := s.pc[t := GetNext(h)], refs := s.refs[h := (refs + 1) % WORD])
      else s.(pc := s.pc[t := GetHead])
    case GetNext(h) =>
      s.(pc := s.pc[t := GetCas(h, s.next[h])])
    case GetCas(h, next) =>
      if s.head == To(h)
      then s.(pc := s.pc[t := GetTake(h)], head := next,
              status := s.status[h := Taking(t)], list := if s.list == [] then [] else s.list[1..])
      else s.(pc := s.pc[t := GetDrop(h, s.head)])
    case GetTake(h) =>
      s.(pc := s.pc[t := Idle], refs := s.refs[h := FetchAdd(s.refs[h], -2)],
         status := s.status[h := Out])
    case GetDrop(h, head) =>
      var s1 := s.(refs := s.refs[h := FetchAdd(s.refs[h], -1)]);
      if s.refs[h] == FLAG + 1
      then s1.(pc := s.pc[t := LinkLoad(h, Loop(head))], status := s.status[h := Zero(t)])
      else s1.(pc := s.pc[t := Start(head)])
  }

  ghost predicate StepOf(s: State, t: nat, s': State) {
    && t < |s.pc|
    && (|| Begin(s, t, s')
        || (s.pc[t] != Idle && InRange(s, s.pc[t]) && s' == Access(s, t)))
  }

  ghost predicate Next(s: State, s': State) {
    exists t: nat :: StepOf(s, t, s')
  }

  /** A run: any interleaving of any number of threads. */
  ghost predicate Run(run: seq<State>) {
    && |run| > 0 && Init(run[0])
    && (forall i :: 0 <= i < |run| - 1 ==> Next(run[i], run[i + 1]))
  }

  // -------------------------------------------------------------- invariant

  /** The references thread-local code holds on node n. */
  function Pin(p: Pc, n: Node): int {
    match p
    case GetNext(h) => if h == n then 1 else 0
    case GetCas(h, _) => if h == n then 1 else 0
    case GetTake(h) => if h == n then 1 else 0
    case GetDrop(h, _) => if h == n then 1 else 0
    case _ => 0
  }

  function PinOn(n: Node): Pc -> int {
    (p: Pc) => Pin(p, n)
  }

  ghost function Pins(s: State, n: Node): int {
    Total(s.pc, PinOn(n))
  }

  /** The reference the list itself accounts for. */
  function ListRef(st: Status): int {
    if st.Linking? || st.Undoing? || st.Listed? || st.Taking? then 1 else 0
  }

  function Flag(st: Status): int {
    if st.Waiting? || st.Zero? then FLAG else 0
  }

  ghost predicate HeadsInRange(s: State, p: Pc) {
    && InRange(s, p)
    && (p.LinkNext? || p.LinkRefs? || p.LinkCas? || p.LinkUndo? ==> Valid(s, p.head))
    && (p.LinkLoad? || p.LinkNext? || p.LinkRefs? || p.LinkCas? || p.LinkUndo? ==> ValidAfter(s, p.after))
    && (p.GetCas? ==> Valid(s, p.next))
    && (p.GetDrop? ==> Valid(s, p.head))
  }

  predicate Valid(s: State, l: Link) {
    l.To? ==> l.node < |s.refs|
  }

  predicate ValidAfter(s: State, a: After) {
    a.Loop? ==> Valid(s, a.head)
  }

  /** What a thread may rely on at each point of its code. */
  ghost predicate PcOk(s: State, t: nat)
    requires t < |s.pc|
  {
    var p := s.pc[t];
    && HeadsInRange(s, p)
    && (match p
        case AddFlag(n) => s.status[n] == Adding(t)
        case LinkLoad(n, _) => s.status[n] == Zero(t)
        case LinkNext(n, _, _) => s.status[n] == Zero(t)
        case LinkRefs(n, head, _) => s.status[n] == Zero(t) && s.next[n] == head
        case LinkCas(n, head, _) => s.status[n] == Linking(t) && s.next[n] == head
        case LinkUndo(n, _, _) => s.status[n] == Undoing(t)
        case GetPin(h, refs) => refs % FLAG != 0
        case GetCas(h, next) => s.next[h] == next
        case GetTake(h) => s.status[h] == Taking(t)
        case _ => true)
  }

  /** Thread t is at the point of its code that status st of node n names. */
  predicate OwnerAt(s: State, t: nat, n: Node, st: Status) {
    && t < |s.pc|
    && var p := s.pc[t];
      && (st.Adding? ==> p == AddFlag(n))
      && (st.Zero? ==> (p.LinkLoad? || p.LinkNext? || p.LinkRefs?) && p.n == n)
      && (st.Linking? ==> p.LinkCas? && p.n == n)
      && (st.Undoing? ==> p.LinkUndo? && p.n == n)
      && (st.Taking? ==> p == GetTake(n))
  }

  ghost predicate NodeOk(s: State, n: Node)
    requires n < |s.refs| == |s.next| == |s.status|
  {
    var st := s.status[n];
    && s.refs[n] == Pins(s, n) + ListRef(st) + Flag(st)
    && (st.Zero? ==> Pins(s, n) == 0)
    && (st.Waiting? ==> Pins(s, n) > 0)
    && Valid(s, s.next[n])
    && (st.Adding? || st.Zero? || st.Linking? || st.Undoing? || st.Taking? ==> OwnerAt(s, st.t, n, st))
    && (st.Listed? <==> n in s.list)
  }

  ghost predicate Inv(s: State) {
    && |s.refs| == |s.next| == |s.status|
    && |s.pc| < FLAG - 1
    && Chain(s.next, s.head, s.list)
    && (forall t :: 0 <= t < |s.pc| ==> PcOk(s, t))
    && (forall n :: 0 <= n < |s.refs| ==> NodeOk(s, n))
  }

  lemma InitInv(s: State)
    requires Init(s)
    ensures Inv(s)
  {
    forall n | 0 <= n < |s.refs| ensures NodeOk(s, n) {
      TotalZero(s.pc, PinOn(n));
    }
  }

  /** Moving thread t's program counter changes the references on a node by t's own share. */
  lemma PinsAfter(s: State, t: nat, p: Pc, n: Node)
    requires t < |s.pc|
    ensures Total(s.pc[t := p], PinOn(n)) == Pins(s, n) - Pin(s.pc[t], n) + Pin(p, n)
    ensures 0 <= Pins(s, n) <= |s.pc|
    ensures forall u :: 0 <= u < |s.pc| ==> Pin(s.pc[u], n) <= Pins(s, n)
  {
    TotalUpdate(s.pc, t, p, PinOn(n));
    TotalBounds(s.pc, PinOn(n));
    forall u | 0 <= u < |s.pc| ensures Pin(s.pc[u], n) <= Pins(s, n) {
      assert PinOn(n)(s.pc[u]) == Pin(s.pc[u], n);
    }
  }

  /** PinsAfter for every node at once, about a whole step of thread t. */
  lemma PinsStep(s: State, t: nat, s': State)
    requires t < |s.pc| && |s'.pc| == |s.pc| && s'.pc == s.pc[t := s'.pc[t]]
    ensures forall n: Node :: Pins(s', n) == Pins(s, n) - Pin(s.pc[t], n) + Pin(s'.pc[t], n)
    ensures forall n: Node :: 0 <= Pins(s, n) <= |s.pc|
    ensures forall u, n: Node :: 0 <= u < |s.pc| ==> Pin(s.pc[u], n) <= Pins(s, n)
  {
    forall n: Node
      ensures Pins(s', n) == Pins(s, n) - Pin(s.pc[t], n) + Pin(s'.pc[t], n)
      ensures 0 <= Pins(s, n) <= |s.pc|
      ensures forall u :: 0 <= u < |s.pc| ==> Pin(s.pc[u], n) <= Pins(s, n)
    {
      PinsAfter(s, t, s'.pc[t], n);
    }
  }

  /** The node thread-local code is working on. */
  function Target(p: Pc): Link {
    match p
    case Idle => Nil
    case GetHead => Nil
    case AddFlag(n) => To(n)
    case LinkLoad(n, _) => To(n)
    case LinkNext(n, _, _) => To(n)
    case LinkRefs(n, _, _) => To(n)
    case LinkCas(n, _, _) => To(n)
    case LinkUndo(n, _, _) => To(n)
    case GetRefs(h) => To(h)
    case GetPin(h, _) => To(h)
    case GetNext(h) => To(h)
    case GetCas(h, _) => To(h)
    case GetTake(h) => To(h)
    case GetDrop(h, _) => To(h)
  }

  /** From s to s' thread t moved and touched nothing but node m. */
  ghost predicate Touches(s: State, t: nat, s': State, m: Node) {
    && t < |s.pc| == |s'.pc| && s'.pc == s.pc[t := s'.pc[t]]
    && |s.refs| == |s.next| == |s.status| && m < |s.refs|
    && |s'.refs| == |s'.next| == |s'.status| == |s.refs|
    && s'.refs == s.refs[m := s'.refs[m]]
    && s'.next == s.next[m := s'.next[m]]
    && s'.status == s.status[m := s'.status[m]]
    && Target(s.pc[t]) in {Nil, To(m)}
    && (forall n :: 0 <= n < |s.refs| && n != m ==> (n in s.list <==> n in s'.list))
  }

  lemma OtherThreads(s: State, t: nat, s': State, m: Node)
    requires Inv(s) && Touches(s, t, s', m)
    requires s'.status[m] == s.status[m]
          || s.status[m].Out? || s.status[m].Waiting? || s.status[m].Listed? || s.status[m].t == t
    requires s'.next[m] == s.next[m] || s.status[m] == Zero(t)
    ensures forall u :: 0 <= u < |s.pc| && u != t ==> PcOk(s', u)
  {
    PinsStep(s, t, s');
    assert NodeOk(s, m);
    forall u | 0 <= u < |s.pc| && u != t ensures PcOk(s', u) {
      assert PcOk(s, u) && Pin(s.pc[u], m) <= Pins(s, m);
    }
  }

  lemma OtherNodes(s: State, t: nat, s': State, m: Node)
    requires Inv(s) && Touches(s, t, s', m)
    requires forall n: Node :: n != m ==> Pin(s.pc[t], n) == Pin(s'.pc[t], n)
    ensures forall n :: 0 <= n < |s.refs| && n != m ==> NodeOk(s', n)
  {
    PinsStep(s, t, s');
    forall n | 0 <= n < |s.refs| && n != m ensures NodeOk(s', n) { assert NodeOk(s, n); }
  }

  lemma BeginInv(s: State, t: nat, s': State)
    requires Inv(s) && t < |s.pc| && Begin(s, t, s')
    ensures Inv(s')
  {
    PinsStep(s, t, s');
    forall u | 0 <= u < |s.pc| ensures PcOk(s', u) { assert PcOk(s, u); }
    forall n | 0 <= n < |s.refs| ensures NodeOk(s', n) { assert NodeOk(s, n); }
  }

  lemma GetHeadInv(s: State, t: nat)
    requires Inv(s) && t < |s.pc| && InRange(s, s.pc[t]) && s.pc[t].GetHead?
    ensures Inv(Access(s, t))
  {
    var s' := Access(s, t);
    PinsStep(s, t, s');
    forall u | 0 <= u < |s.pc| ensures PcOk(s', u) { assert PcOk(s, u); }
    forall n | 0 <= n < |s.refs| ensures NodeOk(s', n) { assert NodeOk(s, n); }
  }

  lemma AddFlagInv(s: State, t: nat)
    requires Inv(s) && t < |s.pc| && InRange(s, s.pc[t]) && s.pc[t].AddFlag?
    ensures Inv(Access(s, t))
  {
    var s', m := Access(s, t), s.pc[t].n;
    assert PcOk(s, t) && NodeOk(s, m);
    PinsStep(s, t, s');
    OtherThreads(s, t, s', m);
    OtherNodes(s, t, s', m);
  }

  lemma LinkLoadInv(s: State, t: nat)
    requires Inv(s) && t < |s.pc| && InRange(s, s.pc[t]) && s.pc[t].LinkLoad?
    ensures Inv(Access(s, t))
  {
    var s', m := Access(s, t), s.pc[t].n;
    assert PcOk(s, t) && NodeOk(s, m);
    PinsStep(s, t, s');
    OtherThreads(s, t, s', m);
    OtherNodes(s, t, s', m);
  }

  /** Only here does a node's next change, and then nobody holds a reference to it. */
  lemma LinkNextInv(s: State, t: nat)
    requires Inv(s) && t < |s.pc| && InRange(s, s.pc[t]) && s.pc[t].LinkNext?
    ensures Inv(Access(s, t))
  {
    var s', m := Access(s, t), s.pc[t].n;
    assert PcOk(s, t) && NodeOk(s, m);
    ChainFrame(s.next, s.head, s.list, m, s.pc[t].head);
    PinsStep(s, t, s');
    OtherThreads(s, t, s', m);
    OtherNodes(s, t, s', m);
  }

  lemma LinkRefsInv(s: State, t: nat)
    requires Inv(s) && t < |s.pc| && InRange(s, s.pc[t]) && s.pc[t].LinkRefs?
    ensures Inv(Access(s, t))
  {
    var s', m := Access(s, t), s.pc[t].n;
    assert PcOk(s, t) && NodeOk(s, m);
    PinsStep(s, t, s');
    OtherThreads(s, t, s', m);
    OtherNodes(s, t, s', m);
  }

  lemma LinkCasInv(s: State, t: nat)
    requires Inv(s) && t < |s.pc| && InRange(s, s.pc[t]) && s.pc[t].LinkCas?
    ensures Inv(Access(s, t))
  {
    var s', m := Access(s, t), s.pc[t].n;
    assert PcOk(s, t) && NodeOk(s, m);
    assert ([m] + s.list)[1..] == s.list;
    PinsStep(s, t, s');
    OtherThreads(s, t, s', m);
    OtherNodes(s, t, s', m);
  }

  lemma LinkUndoInv(s: State, t: nat)
    requires Inv(s) && t < |s.pc| && InRange(s, s.pc[t]) && s.pc[t].LinkUndo?
    ensures Inv(Access(s, t))
  {
    var s', m := Access(s, t), s.pc[t].n;
    assert PcOk(s, t) && NodeOk(s, m);
    PinsStep(s, t, s');
    OtherThreads(s, t, s', m);
    OtherNodes(s, t, s', m);
  }

  lemma GetRefsInv(s: State, t: nat)
    requires Inv(s) && t < |s.pc| && InRange(s, s.pc[t]) && s.pc[t].GetRefs?
    ensures Inv(Access(s, t))
  {
    var s', m := Access(s, t), s.pc[t].h;
    assert PcOk(s, t) && NodeOk(s, m);
    PinsStep(s, t, s');
    OtherThreads(s, t, s', m);
    OtherNodes(s, t, s', m);
  }

  lemma GetPinInv(s: State, t: nat)
    requires Inv(s) && t < |s.pc| && InRange(s, s.pc[t]) && s.pc[t].GetPin?
    ensures Inv(Access(s, t))
  {
    var s', m := Access(s, t), s.pc[t].h;
    assert PcOk(s, t) && NodeOk(s, m);
    PinsStep(s, t, s');
    OtherThreads(s, t, s', m);
    OtherNodes(s, t, s', m);
  }

  lemma GetNextInv(s: State, t: nat)
    requires Inv(s) && t < |s.pc| && InRange(s, s.pc[t]) && s.pc[t].GetNext?
    ensures Inv(Access(s, t))
  {
    var s', m := Access(s, t), s.pc[t].h;
    assert PcOk(s, t) && NodeOk(s, m);
    PinsStep(s, t, s');
    OtherThreads(s, t, s', m);
    OtherNodes(s, t, s', m);
  }

  lemma GetCasInv(s: State, t: nat)
    requires Inv(s) && t < |s.pc| && InRange(s, s.pc[t]) && s.pc[t].GetCas?
    ensures Inv(Access(s, t))
  {
    var s', m := Access(s, t), s.pc[t].h;
    assert PcOk(s, t) && NodeOk(s, m);
    if s.head == To(m) {
      assert s.list == [m] + s.list[1..];
    }
    PinsStep(s, t, s');
    OtherThreads(s, t, s', m);
    OtherNodes(s, t, s', m);
  }

  lemma GetTakeInv(s: State, t: nat)
    requires Inv(s) && t < |s.pc| && InRange(s, s.pc[t]) && s.pc[t].GetTake?
    ensures Inv(Access(s, t))
  {
    var s', m := Access(s, t), s.pc[t].h;
    assert PcOk(s, t) && NodeOk(s, m);
    assert Pin(s.pc[t], m) == 1;
    PinsStep(s, t, s');
    OtherThreads(s, t, s', m);
    OtherNodes(s, t, s', m);
  }

  lemma GetDropInv(s: State, t: nat)
    requires Inv(s) && t < |s.pc| && InRange(s, s.pc[t]) && s.pc[t].GetDrop?
    ensures Inv(Access(s, t))
  {
    var s', m := Access(s, t), s.pc[t].h;
    assert PcOk(s, t) && NodeOk(s, m);
    assert Pin(s.pc[t], m) == 1;
    PinsStep(s, t, s');
    OtherThreads(s, t, s', m);
    OtherNodes(s, t, s', m);
  }

  lemma StepInv(s: State, t: nat, s': State)
    requires Inv(s) && StepOf(s, t, s')
    ensures Inv(s')
  {
    if Begin(s, t, s') {
      BeginInv(s, t, s');
    } else {
      match s.pc[t] {
        case AddFlag(_) => AddFlagInv(s, t);
        case LinkLoad(_, _) => LinkLoadInv(s, t);
        case LinkNext(_, _, _) => LinkNextInv(s, t);
        case LinkRefs(_, _, _) => LinkRefsInv(s, t);
        case LinkCas(_, _, _) => LinkCasInv(s, t);
        case LinkUndo(_, _, _) => LinkUndoInv(s, t);
        case GetHead => GetHeadInv(s, t);
        case GetRefs(_) => GetRefsInv(s, t);
        case GetPin(_, _) => GetPinInv(s, t);
        case GetNext(_) => GetNextInv(s, t);
        case GetCas(_, _) => GetCasInv(s, t);
        case GetTake(_) => GetTakeInv(s, t);
        case GetDrop(_, _) => GetDropInv(s, t);
      }
    }
  }

  /** Every state of every run satisfies the invariant. */
  lemma {:induction false} RunInv(run: seq<State>, i: nat)
    requires Run(run) && i < |run|
    ensures Inv(run[i])
  {
    if i == 0 {
      InitInv(run[0]);
    } else {
      RunInv(run, i - 1);
      assert Next(run[i - 1], run[i - 1 + 1]);
      var t: nat :| StepOf(run[i - 1], t, run[i]);
      StepInv(run[i - 1], t, run[i]);
    }
  }

  // ------------------------------------------------------------- main results

  ghost predicate Reachable(s: State) {
    exists run: seq<State> :: Run(run) && run[|run| - 1] == s
  }

  lemma ReachableInv(s: State)
    requires Reachable(s)
    ensures Inv(s)
  {
    var run: seq<State> :| Run(run) && run[|run| - 1] == s;
    RunInv(run, |run| - 1);
  }

  /** A node is handed to at most one taker: whoever has just unlinked it is alone with it, and it
      is neither on the list, nor out with somebody else, nor on its way back. */
  lemma OneTaker(s: State, t: nat, u: nat)
    requires Reachable(s) && t < |s.pc| && u < |s.pc| && s.pc[t].GetTake?
    requires s.pc[u].GetTake? || s.pc[u].AddFlag? || s.pc[u].LinkLoad? || s.pc[u].LinkNext?
          || s.pc[u].LinkRefs? || s.pc[u].LinkCas? || s.pc[u].LinkUndo?
    requires Target(s.pc[u]) == Target(s.pc[t])
    ensures u == t
    ensures s.pc[t].h < |s.status| && s.pc[t].h !in s.list && s.status[s.pc[t].h] != Out
  {
    ReachableInv(s);
    assert PcOk(s, t) && PcOk(s, u) && NodeOk(s, s.pc[t].h);
  }

  /** No ABA: when the CAS of the head is about to succeed, the next read under the reference is
      the second node of the list as it is now, whatever happened in between; and the check the
      code makes right after it, that the flag is clear, holds until the references are dropped. */
  lemma NoAba(s: State, t: nat)
    requires Reachable(s) && t < |s.pc|
    ensures s.pc[t].GetCas? && s.head == To(s.pc[t].h) ==>
              && s.list != [] && s.list[0] == s.pc[t].h
              && s.pc[t].next == if |s.list| > 1 then To(s.list[1]) else Nil
    ensures s.pc[t].GetTake? ==> s.pc[t].h < |s.refs| && 2 <= s.refs[s.pc[t].h] < FLAG
  {
    ReachableInv(s);
    assert PcOk(s, t);
    if s.pc[t].GetTake? {
      PinsAfter(s, t, s.pc[t], s.pc[t].h);
      assert NodeOk(s, s.pc[t].h) && Pin(s.pc[t], s.pc[t].h) == 1;
    }
    if |s.list| > 0 {
      assert Chain(s.next, s.next[s.list[0]], s.list[1..]);
      assert |s.list| > 1 ==> s.list[1..][0] == s.list[1];
    }
  }

  /** Thread t holds a reference to n and has still to give it back through the losing branch. */
  predicate Holder(s: State, t: nat, n: Node) {
    t < |s.pc| && Pin(s.pc[t], n) == 1 && !s.pc[t].GetTake?
  }

  /** No node is ever lost: it is out, or exactly one thread is adding, linking or taking it, or
      it is on the list, or it is flagged and some thread still holds a reference to it. */
  lemma NoNodeLost(s: State, n: Node)
    requires Reachable(s) && n < |s.status|
    ensures match s.status[n]
            case Out => n !in s.list
            case Listed => n in s.list
            case Waiting => n !in s.list && exists t: nat :: Holder(s, t, n)
            case st => n !in s.list && st.t < |s.pc| && Target(s.pc[st.t]) == To(n)
  {
    ReachableInv(s);
    assert NodeOk(s, n);
    if s.status[n].Waiting? {
      var t := TotalWitness(s.pc, PinOn(n));
      assert PcOk(s, t) && PinOn(n)(s.pc[t]) == Pin(s.pc[t], n);
      assert Holder(s, t, n);
    }
  }

  /** ... and that holder is bound to re-add it.  Its reference outlives the steps of others; */
  lemma HolderStays(s: State, t: nat, n: Node, u: nat, s': State)
    requires Reachable(s) && n < |s.status| && s.status[n].Waiting? && Holder(s, t, n)
    requires StepOf(s, u, s') && u != t
    ensures Holder(s', t, n) && n < |s'.status| && s'.status[n].Waiting?
  {
    ReachableInv(s);
    assert NodeOk(s, n) && PcOk(s, u);
    if t < u { OtherPin(s.pc, t, u, n); } else { OtherPin(s.pc, u, t, n); }
    PinsAfter(s, u, s.pc[u], n);
    if s.pc[u] != Idle {
      StaysWaiting(s, u, n);
    }
  }

  lemma StaysWaiting(s: State, u: nat, n: Node)
    requires u < |s.pc| < FLAG - 1 && InRange(s, s.pc[u]) && n < |s.status|
    requires PcOk(s, u) && NodeOk(s, n) && s.status[n].Waiting?
    requires Pin(s.pc[u], n) < Pins(s, n) <= |s.pc| && s.head != To(n)
    ensures var s' := Access(s, u); |s'.status| == |s.status| && s'.status[n].Waiting?
    ensures |Access(s, u).pc| == |s.pc| && forall t :: 0 <= t < |s.pc| && t != u ==> Access(s, u).pc[t] == s.pc[t]
  {
  }

  /** it cannot win the CAS of the head, and dropping the last reference starts the linking. */
  lemma HolderReAdds(s: State, t: nat, n: Node)
    requires Reachable(s) && n < |s.status| && s.status[n].Waiting? && Holder(s, t, n)
    ensures InRange(s, s.pc[t]) && n < |Access(s, t).status|
    ensures var s' := Access(s, t);
            && t < |s'.pc|
            && (s.pc[t].GetNext? ==> Holder(s', t, n) && s'.pc[t].GetCas? && s'.status[n].Waiting?)
            && (s.pc[t].GetCas? ==> Holder(s', t, n) && s'.pc[t].GetDrop? && s'.status[n].Waiting?)
            && (s.pc[t].GetDrop? ==>
                  if Pins(s, n) == 1
                  then s'.pc[t] == LinkLoad(n, Loop(s.pc[t].head)) && s'.status[n] == Zero(t)
                  else Pins(s', n) == Pins(s, n) - 1 && s'.status[n].Waiting?)
  {
    ReachableInv(s);
    assert NodeOk(s, n) && PcOk(s, t);
    PinsAfter(s, t, Access(s, t).pc[t], n);
  }

  lemma OtherPin(pc: seq<Pc>, t: nat, u: nat, n: Node)
    requires t < u < |pc|
    ensures Pin(pc[t], n) + Pin(pc[u], n) <= Total(pc, PinOn(n))
  {
    TotalDominates(pc, PinOn(n));
    assert PinOn(n)(pc[t]) == Pin(pc[t], n) && PinOn(n)(pc[u]) == Pin(pc[u], n);
  }

  /** Linearization: as a set of available nodes the list changes in two kinds of step only, the
      CAS that ends an add and the CAS that makes a try_get succeed, each by the node at hand. */
  lemma StepRefinesBag(s: State, t: nat, s': State)
    requires Reachable(s) && StepOf(s, t, s')
    ensures s'.list == s.list
         || (s.pc[t].LinkCas? && s'.list == [s.pc[t].n] + s.list && s.pc[t].n !in s.list)
         || (s.pc[t].GetCas? && s'.pc[t] == GetTake(s.pc[t].h) && s.list == [s.pc[t].h] + s'.list)
  {
    ReachableInv(s);
    assert PcOk(s, t);
    match s.pc[t] {
      case LinkCas(n, _, _) => assert NodeOk(s, n);
      case GetCas(h, _) => if s.list != [] { assert s.list == [s.list[0]] + s.list[1..]; }
      case _ =>
    }
  }

  /** When every operation has returned, the list holds exactly the nodes that are not out, each
      once, and the reference words are back at 1 for those and at 0 for the others. */
  lemma Quiescent(s: State, n: Node)
    requires Reachable(s) && n < |s.status|
    requires forall t :: 0 <= t < |s.pc| ==> s.pc[t] == Idle
    ensures (n in s.list) <==> s.status[n] != Out
    ensures n < |s.refs| && s.refs[n] == if n in s.list then 1 else 0
    ensures |multiset(s.list)| == |s.list| && multiset(s.list)[n] <= 1
  {
    ReachableInv(s);
    assert NodeOk(s, n);
    TotalZero(s.pc, PinOn(n));
    ChainDistinct(s.next, s.head, s.list, n);
  }

  // ------------------------------------------------ when try_get gives up

  /** Thread t's step, or somebody else's, which leaves t where it is. */
  lemma OwnOrOther(s: State, t: nat, s': State)
    requires Next(s, s') && t < |s.pc|
    ensures |s'.pc| == |s.pc| && (StepOf(s, t, s') || s'.pc[t] == s.pc[t])
  {
    hide InRange, Access;
    var u: nat :| StepOf(s, u, s');
    if s.pc[u] != Idle {
      OnlyOwnPc(s, u);
    }
  }

  lemma OnlyOwnPc(s: State, u: nat)
    requires u < |s.pc| && InRange(s, s.pc[u])
    ensures |Access(s, u).pc| == |s.pc| && forall t :: 0 <= t < |s.pc| && t != u ==> Access(s, u).pc[t] == s.pc[t]
  {
  }

  /** Somewhere in try_get, the helper it calls included. */
  predicate InGet(p: Pc) {
    match p
    case Idle => false
    case AddFlag(_) => false
    case LinkLoad(_, after) => after.Loop?
    case LinkNext(_, _, after) => after.Loop?
    case LinkRefs(_, _, after) => after.Loop?
    case LinkCas(_, _, after) => after.Loop?
    case LinkUndo(_, _, after) => after.Loop?
    case _ => true
  }

  /** The head the loop of try_get will go on with is null. */
  predicate RemembersNil(p: Pc) {
    match p
    case LinkLoad(_, after) => after == Loop(Nil)
    case LinkNext(_, _, after) => after == Loop(Nil)
    case LinkRefs(_, _, after) => after == Loop(Nil)
    case LinkCas(_, _, after) => after == Loop(Nil)
    case LinkUndo(_, _, after) => after == Loop(Nil)
    case GetDrop(_, head) => head == Nil
    case _ => false
  }

  /** A step of try_get ends it without a node, or makes it remember a null head, only if the list is
      empty then or it remembers one already. */
  lemma GetStep(s: State, t: nat, s': State)
    requires Inv(s) && StepOf(s, t, s') && InGet(s.pc[t])
    ensures |s'.pc| == |s.pc| && (InGet(s'.pc[t]) || s'.pc[t] == Idle)
    ensures s'.pc[t] == Idle ==> s.pc[t].GetTake? || s.list == [] || RemembersNil(s.pc[t])
    ensures RemembersNil(s'.pc[t]) ==> s.list == [] || RemembersNil(s.pc[t])
  {
    hide NodeOk, PcOk;
  }

  /** In the run from i to j, thread t is in one call of try_get. */
  ghost predicate OneGet(run: seq<State>, i: nat, j: nat, t: nat) {
    && i <= j < |run| && t < |run[i].pc| && run[i].pc[t] == GetHead
    && forall k :: i <= k <= j ==> t < |run[k].pc| && run[k].pc[t] != Idle
  }

  ghost predicate EmptyBetween(run: seq<State>, i: nat, j: nat) {
    exists k :: i <= k < j < |run| && run[k].list == []
  }

  lemma EmptyLonger(run: seq<State>, i: nat, j: nat)
    requires j + 1 < |run| && (EmptyBetween(run, i, j) || (i <= j && run[j].list == []))
    ensures EmptyBetween(run, i, j + 1)
  {
  }

  lemma {:induction false} NilWasSeen(run: seq<State>, i: nat, j: nat, t: nat)
    requires Run(run) && OneGet(run, i, j, t)
    ensures InGet(run[j].pc[t]) && (RemembersNil(run[j].pc[t]) ==> EmptyBetween(run, i, j))
  {
    hide Inv, Next, StepOf, EmptyBetween, InGet, RemembersNil;
    if i == j {
      assert InGet(GetHead) && !RemembersNil(GetHead) by { AtHead(); }
    } else {
      NilWasSeen(run, i, j - 1, t);
      var s, s' := run[j - 1], run[j];
      assert Next(s, run[j - 1 + 1]);
      RunInv(run, j - 1);
      OwnOrOther(s, t, s');
      if StepOf(s, t, s') {
        GetStep(s, t, s');
      }
      if RemembersNil(s'.pc[t]) {
        EmptyLonger(run, i, j - 1);
      }
    }
  }

  lemma AtHead()
    ensures InGet(GetHead) && !RemembersNil(GetHead)
  {
  }

  /** try_get returns nothing only if the list was empty at some moment of the call. */
  lemma GivesUpOnEmpty(run: seq<State>, i: nat, j: nat, t: nat)
    requires Run(run) && OneGet(run, i, j, t) && j + 1 < |run|
    requires t < |run[j + 1].pc| && run[j + 1].pc[t] == Idle && !run[j].pc[t].GetTake?
    ensures exists k :: i <= k <= j && run[k].list == []
  {
    hide Inv, Next, StepOf, InGet, RemembersNil;
    NilWasSeen(run, i, j, t);
    RunInv(run, j);
    OwnOrOther(run[j], t, run[j + 1]);
    GetStep(run[j], t, run[j + 1]);
  }

  function Steps(s: State, t: nat, n: nat): (s': State)
    requires t < |s.pc|
    ensures |s'.pc| == |s.pc|
  {
    if n == 0 then s
    else
      var s1 := Steps(s, t, n - 1);
      if InRange(s1, s1.pc[t]) then Access(s1, t) else s1
  }

  lemma OneMore(s: State, t: nat, n: nat, s': State)
    requires t < |s.pc| && InRange(Steps(s, t, n), Steps(s, t, n).pc[t]) && s' == Access(Steps(s, t, n), t)
    ensures Steps(s, t, n + 1) == s'
  {
    hide InRange, Access;
  }

  /** Alone, the thread gets its reference, */
  lemma AlonePins(s: State, t: nat, h: Node)
    requires t < |s.pc| && |s.refs| == |s.next| == |s.status| && h < |s.refs| && s.refs[h] == 1 && s.head == To(h)
    ensures Steps(s.(pc := s.pc[t := GetHead]), t, 3) == s.(pc := s.pc[t := GetNext(h)], refs := s.refs[h := 2])
  {
    var s0 := s.(pc := s.pc[t := GetHead]);
    assert Steps(s0, t, 0) == s0;
    hide Steps;
    OneMore(s0, t, 0, s.(pc := s.pc[t := GetRefs(h)]));
    OneMore(s0, t, 1, s.(pc := s.pc[t := GetPin(h, 1)]));
    OneMore(s0, t, 2, s.(pc := s.pc[t := GetNext(h)], refs := s.refs[h := 2]));
  }

  /** and wins the CAS of the head. */
  lemma AloneWins(s: State, t: nat, h: Node, s0: State)
    requires t < |s.pc| == |s0.pc| && |s.refs| == |s.next| == |s.status| && h < |s.refs| && s.head == To(h)
    requires s.pc[t] == GetNext(h) && Steps(s0, t, 3) == s && s.list != []
    ensures Steps(s0, t, 5).pc[t] == GetTake(h) && Steps(s0, t, 5).list == s.list[1..]
  {
    hide Steps;
    var s1 := s.(pc := s.pc[t := GetCas(h, s.next[h])]);
    OneMore(s0, t, 3, s1);
    OneMore(s0, t, 4, Access(s1, t));
  }

  /** A try_get that runs alone on a list that is not empty takes the first node. */
  lemma AloneTakes(s: State, t: nat)
    requires Reachable(s) && forall u :: 0 <= u < |s.pc| ==> s.pc[u] == Idle
    requires t < |s.pc| && s.list != []
    ensures var s' := Steps(s.(pc := s.pc[t := GetHead]), t, 5);
            s'.pc[t] == GetTake(s.list[0]) && s'.list == s.list[1..]
  {
    ReachableInv(s);
    var h := s.list[0];
    assert s.head == To(h) && h < |s.refs| == |s.next| == |s.status|;
    hide Inv, Access, Steps, Reachable;
    Quiescent(s, h);
    AlonePins(s, t, h);
    AloneWins(s.(pc := s.pc[t := GetNext(h)], refs := s.refs[h := 2]), t, h, s.(pc := s.pc[t := GetHead]));
  }

  /** An operation under way always has a next step. */
  lemma NotStuck(s: State, t: nat)
    requires Reachable(s) && t < |s.pc| && s.pc[t] != Idle
    ensures InRange(s, s.pc[t]) && StepOf(s, t, Access(s, t))
  {
    ReachableInv(s);
    assert PcOk(s, t);
    hide Access;
  }
}
