/** The Chase-Lev work-stealing deque: one owner that pushes and pops at the bottom, any number of
    thieves that steal from the top, and a circular array that the owner replaces by a bigger one.

    Each step is one access to the shared words `top`, `bottom` and `array` or to one array slot.
    Indices are unbounded here and the comparisons are those of the 64-bit code (`Gap`). */
module WorkStealing {
  import opened Words

  type Task = nat

  /** circular_array: the owner grows it into a new object, because thieves may still read the old. */
  class CircularArray {
    const items: array<Task>

    constructor (n: nat)
      ensures items.Length == n && fresh(items)
    {
      items := new Task[n];
    }

    function Get(index: int): Task
      requires items.Length > 0
      reads items
    {
      items[index % items.Length]
    }

    method Put(index: int, x: Task)
      requires items.Length > 0
      modifies items
      ensures items[..] == old(items[..])[index % items.Length := x]
    {
      items[index % items.Length] := x;
    }

    method Grow(top: int, bottom: int) returns (bigger: CircularArray)
      requires items.Length > 0 && top <= bottom <= top + items.Length
      ensures fresh(bigger) && fresh(bigger.items)
      ensures Grown(items[..], bigger.items[..], top, bottom)
    {
      bigger := new CircularArray(2 * items.Length);
      var i := top;
      while i != bottom
        invariant top <= i <= bottom
        invariant forall j :: top <= j < i ==>
                  bigger.items[Slot(j, bigger.items.Length)] == items[Slot(j, items.Length)]
      {
        forall j | top <= j < i ensures Slot(j, bigger.items.Length) != Slot(i, bigger.items.Length) {
          SlotsDistinct(j, i, bigger.items.Length);
        }
        bigger.Put(i, Get(i));
        i := i + 1;
      }
    }
  }

  /** The new array has twice the slots of the old and the same tasks at the indices from top to bottom; its
      other slots may hold anything. */
  ghost predicate Grown(old': seq<Task>, new': seq<Task>, top: int, bottom: int) {
    && |old'| > 0 && |new'| == 2 * |old'|
    && forall i :: top <= i < bottom ==> new'[Slot(i, |new'|)] == old'[Slot(i, |old'|)]
  }

  // ------------------------------------------------------------- the protocol

  datatype OwnerPc =
    | Idle
    | PushTop(x: Task)                       // push: load top
    | PushGrow(x: Task, t: int)              //   full: store a bigger array
    | PushPut(x: Task)                       //   store the task in its slot
    | PushBottom(x: Task)                    //   store bottom + 1
    | PopPeek                                // pop: load top for the early exit
    | PopBottom                              //   store bottom - 1
    | PopTop                                 //   load top again
    | PopRead(t: int)                        //   read the slot
    | PopCas(t: int, x: Task)                //   last task: CAS top
    | PopReset                               //   store bottom + 1

  datatype ThiefPc =
    | Away
    | StealTop                               // load top
    | StealBottom(t: int)                    // load bottom
    | StealArray(t: int)                     // load the array pointer
    | StealRead(t: int, a: nat)              // read the slot
    | StealCas(t: int, x: Task)              // CAS top

  /** `pushed` and `taken` record the tasks passed to push and returned by pop and steal, in the
      order in which that took effect, and `given` those passed to push as soon as it is called; no
      step reads them. */
  datatype State = State(
    top: int, bottom: int,
    arrays: seq<seq<Task>>,
    owner: OwnerPc, thieves: seq<ThiefPc>,
    pushed: seq<Task>, taken: seq<Task>, given: seq<Task>)

  ghost predicate Init(s: State) {
    && s.top == s.bottom == 0
    && |s.arrays| == 1 && |s.arrays[0]| == 32
    && s.owner == Idle
    && (forall i :: 0 <= i < |s.thieves| ==> s.thieves[i] == Away)
    && s.pushed == s.taken == s.given == []
  }

  /** to_signed(b - t), computed on words. */
  function Gap(b: int, t: int): int {
    ToSigned(Word(Word(b) - Word(t)))
  }

  function Current(s: State): seq<Task>
    requires |s.arrays| > 0
  {
    s.arrays[|s.arrays| - 1]
  }

  function At(a: seq<Task>, i: int): Task
    requires |a| > 0
  {
    a[Slot(i, |a|)]
  }

  ghost predicate OwnerStep(s: State, s': State)
    requires |s.arrays| > 0 && |Current(s)| > 0
  {
    var b := s.bottom;
    match s.owner
    case Idle =>
      || s' == s.(owner := PopPeek)
      || (exists x: Task :: s' == s.(owner := PushTop(x), given := s.given + [x]))
    case PushTop(x) =>
      s' == s.(owner := if Gap(b, s.top) >= |Current(s)| then PushGrow(x, s.top) else PushPut(x))
    case PushGrow(x, t) =>
      && |s'.arrays| == |s.arrays| + 1
      && Grown(Current(s), s'.arrays[|s.arrays|], t, b)
      && s' == s.(owner := PushPut(x), arrays := s.arrays + [s'.arrays[|s.arrays|]])
    case PushPut(x) =>
      s' == s.(owner := PushBottom(x),
               arrays := s.arrays[|s.arrays| - 1 := Current(s)[Slot(b, |Current(s)|) := x]])
    case PushBottom(x) =>
      s' == s.(owner := Idle, bottom := b + 1, pushed := s.pushed + [x])
    case PopPeek =>
      s' == s.(owner := if Gap(b, s.top) <= 0 then Idle else PopBottom)
    case PopBottom =>
      s' == s.(owner := PopTop, bottom := b - 1)
    case PopTop =>
      s' == s.(owner := if Gap(b, s.top) < 0 then PopReset else PopRead(s.top))
    case PopRead(t) =>
      var x := At(Current(s), b);
      if b == t
      then s' == s.(owner := PopCas(t, x))
      else s' == s.(owner := Idle, taken := s.taken + [x])
    case PopCas(t, x) =>
      if s.top == t
      then s' == s.(owner := PopReset, top := t + 1, taken := s.taken + [x])
      else s' == s.(owner := PopReset)
    case PopReset =>
      s' == s.(owner := Idle, bottom := b + 1)
  }

  /** compare_exchange_weak may fail for no reason. */
  ghost predicate ThiefStep(s: State, i: nat, s': State)
    requires i < |s.thieves|
  {
    match s.thieves[i]
    case Away =>
      s' == Goes(s, i, StealTop)
    case StealTop =>
      s' == Goes(s, i, StealBottom(s.top))
    case StealBottom(t) =>
      s' == Goes(s, i, if Gap(s.bottom, t) <= 0 then Away else StealArray(t))
    case StealArray(t) =>
      && |s.arrays| > 0
      && s' == Goes(s, i, StealRead(t, |s.arrays| - 1))
    case StealRead(t, a) =>
      && a < |s.arrays| && |s.arrays[a]| > 0
      && s' == Goes(s, i, StealCas(t, At(s.arrays[a], t)))
    case StealCas(t, x) =>
      || s' == Goes(s, i, StealTop)
      || (s.top == t && s' == Goes(s, i, Away).(top := t + 1, taken := s.taken + [x]))
  }

  function Goes(s: State, i: nat, p: ThiefPc): State
    requires i < |s.thieves|
  {
    s.(thieves := s.thieves[i := p])
  }

  ghost predicate Next(s: State, s': State) {
    || (|s.arrays| > 0 && |Current(s)| > 0 && OwnerStep(s, s'))
    || (exists i: nat :: i < |s.thieves| && ThiefStep(s, i, s'))
  }

  /** The limits of the index type: the array has fewer than 2^63 slots, and a thief does not sleep
      between its two loads while 2^63 tasks are pushed. */
  ghost predicate Fits(s: State) {
    && |s.arrays| > 0 && |Current(s)| < HALF
    && forall i :: 0 <= i < |s.thieves| && s.thieves[i].StealBottom? ==> s.bottom - s.thieves[i].t < HALF
  }

  ghost predicate Run(run: seq<State>) {
    && |run| > 0 && Init(run[0])
    && (forall i :: 0 <= i < |run| ==> Fits(run[i]))
    && (forall i :: 0 <= i < |run| - 1 ==> Next(run[i], run[i + 1]))
  }

  // --------------------------------------------------------------- invariant

  /** The owner has stored bottom - 1 and has not given up the task at that index. */
  predicate Claiming(s: State) {
    s.owner.PopTop? || s.owner.PopCas? || s.owner.PopReset? || (s.owner.PopRead? && s.owner.t == s.bottom)
  }

  /** The owner has secured the bottom task without a CAS, and has yet to read it. */
  predicate Secured(s: State) {
    s.owner.PopRead? && s.owner.t != s.bottom
  }

  /** The end of the deque's contents. */
  function Limit(s: State): int {
    if Claiming(s) then s.bottom + 1 else s.bottom
  }

  /** What the deque holds, top first. */
  ghost function Contents(s: State): seq<Task>
    requires |s.arrays| > 0 && |Current(s)| > 0
  {
    Tasks(Current(s), s.top, Limit(s))
  }

  ghost function Tasks(a: seq<Task>, lo: int, hi: int): seq<Task>
    requires |a| > 0
    decreases hi - lo
  {
    if hi <= lo then [] else Tasks(a, lo, hi - 1) + [At(a, hi - 1)]
  }

  /** The task the owner is about to return. */
  ghost function InHand(s: State): seq<Task>
    requires |s.arrays| > 0 && |Current(s)| > 0
  {
    if Secured(s) then [At(Current(s), s.bottom)] else []
  }

  ghost predicate OwnerOk(s: State)
    requires |s.arrays| > 0 && |Current(s)| > 0
  {
    var b := s.bottom;
    match s.owner
    case PushGrow(_, t) => t <= s.top && b - t == |Current(s)|
    case PushPut(_) => b - s.top < |Current(s)|
    case PushBottom(x) => b - s.top < |Current(s)| && At(Current(s), b) == x
    case PopBottom => true
    case PopRead(t) => t <= s.top && t <= b
    case PopCas(t, x) => t == b && t <= s.top && (s.top == t ==> At(Current(s), b) == x)
    case PopReset => s.top == b + 1
    case _ => true
  }

  /** What a thief has seen is still right as long as top has not moved. */
  ghost predicate ThiefOk(s: State, p: ThiefPc)
    requires |s.arrays| > 0 && |Current(s)| > 0
  {
    match p
    case StealBottom(t) => t <= s.top
    case StealArray(t) => t <= s.top && (t == s.top ==> t < Limit(s))
    case StealRead(t, a) =>
      && t <= s.top && a < |s.arrays| && |s.arrays[a]| > 0
      && (t == s.top ==> t < Limit(s) && At(s.arrays[a], t) == At(Current(s), t))
    case StealCas(t, x) =>
      t <= s.top && (t == s.top ==> t < Limit(s) && At(Current(s), t) == x)
    case _ => true
  }

  ghost predicate Inv(s: State) {
    && |s.arrays| > 0
    && (forall k :: 0 <= k < |s.arrays| ==> |s.arrays[k]| > 0)
    && s.top <= Limit(s) <= s.top + |Current(s)|
    && OwnerOk(s)
    && (forall i :: 0 <= i < |s.thieves| ==> ThiefOk(s, s.thieves[i]))
  }

  /** Conservation: every pushed task is in the deque, in the owner's hand, or taken, each once. */
  ghost predicate Conserved(s: State)
    requires |s.arrays| > 0 && |Current(s)| > 0
  {
    multiset(s.pushed) == multiset(s.taken) + multiset(InHand(s)) + multiset(Contents(s))
  }

  /** The task a push under way has yet to publish. */
  function InPush(s: State): seq<Task> {
    if s.owner.PushTop? || s.owner.PushGrow? || s.owner.PushPut? || s.owner.PushBottom? then [s.owner.x] else []
  }

  /** A push that has returned has published its task. */
  ghost predicate Published(s: State) {
    s.given == s.pushed + InPush(s)
  }

  lemma StepPublished(s: State, s': State)
    requires Published(s) && Next(s, s')
    ensures Published(s')
  {
    hide Gap, Slot;
    if |s.arrays| > 0 && |Current(s)| > 0 && OwnerStep(s, s') {
      assert s.owner.PushGrow? ==> s'.owner == PushPut(s.owner.x) && s'.given == s.given && s'.pushed == s.pushed;
    } else {
      var i: nat :| i < |s.thieves| && ThiefStep(s, i, s');
      assert s'.owner == s.owner && s'.given == s.given && s'.pushed == s.pushed;
    }
  }

  lemma GapIs(b: int, t: int)
    requires -HALF <= b - t < HALF
    ensures Gap(b, t) == b - t
  {
    ToSignedExact(b, t);
  }

  lemma PushPutInv(s: State, s': State)
    requires Inv(s) && s.owner.PushPut? && OwnerStep(s, s')
    ensures Inv(s')
    ensures forall i :: s.top <= i < s.bottom ==> At(Current(s'), i) == At(Current(s), i)
  {
    hide Gap, Slot;
    var n, b := |Current(s)|, s.bottom;
    assert Current(s') == Current(s)[Slot(b, n) := s.owner.x];
    forall i | s.top <= i < b ensures Slot(i, n) != Slot(b, n) {
      SlotsDistinct(i, b, n);
    }
    forall i | 0 <= i < |s'.thieves| ensures ThiefOk(s', s'.thieves[i]) {
      assert ThiefOk(s, s.thieves[i]);
    }
  }

  lemma PushGrowInv(s: State, s': State)
    requires Inv(s) && s.owner.PushGrow? && OwnerStep(s, s')
    ensures Inv(s')
    ensures forall i :: s.top <= i < s.bottom ==> At(Current(s'), i) == At(Current(s), i)
  {
    hide Gap, Slot;
    var old', new' := Current(s), Current(s');
    assert new' == s'.arrays[|s.arrays|];
    forall i | s.top <= i < s.bottom ensures At(new', i) == At(old', i) {
      assert new'[Slot(i, |new'|)] == old'[Slot(i, |old'|)];
    }
    forall i | 0 <= i < |s'.thieves| ensures ThiefOk(s', s'.thieves[i]) {
      assert ThiefOk(s, s.thieves[i]);
    }
  }

  lemma OwnerInv(s: State, s': State)
    requires Inv(s) && Fits(s) && OwnerStep(s, s')
    ensures Inv(s')
  {
    hide Inv;
    match s.owner {
      case PushPut(_) => PushPutInv(s, s');
      case PushGrow(_, _) => PushGrowInv(s, s');
      case PopRead(_) => PopEndInv(s, s');
      case PopCas(_, _) => PopEndInv(s, s');
      case PopReset => PopEndInv(s, s');
      case _ => OwnerMoves(s, s');
    }
  }

  lemma OwnerMoves(s: State, s': State)
    requires Inv(s) && Fits(s) && OwnerStep(s, s')
    requires s.owner.Idle? || s.owner.PushTop? || s.owner.PushBottom? || s.owner.PopPeek? || s.owner.PopBottom?
             || s.owner.PopTop?
    ensures Inv(s')
  {
    hide Gap, Slot;
    GapIs(s.bottom, s.top);
    forall i | 0 <= i < |s'.thieves| ensures ThiefOk(s', s'.thieves[i]) {
      assert ThiefOk(s, s.thieves[i]);
    }
  }

  lemma PopEndInv(s: State, s': State)
    requires Inv(s) && Fits(s) && OwnerStep(s, s') && (s.owner.PopRead? || s.owner.PopCas? || s.owner.PopReset?)
    ensures Inv(s')
  {
    hide Gap, Slot;
    forall i | 0 <= i < |s'.thieves| ensures ThiefOk(s', s'.thieves[i]) {
      assert ThiefOk(s, s.thieves[i]);
    }
  }

  lemma ThiefInv(s: State, i: nat, s': State)
    requires Inv(s) && Fits(s) && i < |s.thieves| && ThiefStep(s, i, s')
    ensures Inv(s')
  {
    hide Gap, Slot;
    if s.thieves[i].StealBottom? {
      GapIs(s.bottom, s.thieves[i].t);
    }
    forall j | 0 <= j < |s'.thieves| ensures ThiefOk(s', s'.thieves[j]) {
      assert ThiefOk(s, s.thieves[j]);
    }
  }

  // ------------------------------------------- refinement of an atomic deque

  lemma {:induction false} TasksSame(a: seq<Task>, b: seq<Task>, lo: int, hi: int)
    requires |a| > 0 && |b| > 0
    requires forall i :: lo <= i < hi ==> At(a, i) == At(b, i)
    ensures Tasks(a, lo, hi) == Tasks(b, lo, hi)
    decreases hi - lo
  {
    if lo < hi {
      TasksSame(a, b, lo, hi - 1);
    }
  }

  lemma {:induction false} TasksFirst(a: seq<Task>, lo: int, hi: int)
    requires |a| > 0 && lo < hi
    ensures Tasks(a, lo, hi) == [At(a, lo)] + Tasks(a, lo + 1, hi)
    decreases hi - lo
  {
    if lo < hi - 1 {
      TasksFirst(a, lo, hi - 1);
    }
  }

  /** The operations of an atomic deque: what a step may do to its contents and to the record of
      pushed and taken tasks. */
  ghost predicate Atomic(before: seq<Task>, hand: seq<Task>, s: State, s': State)
    requires |s'.arrays| > 0 && |Current(s')| > 0
  {
    var after, hand' := Contents(s'), InHand(s');
    || (after == before && hand' == hand && s'.pushed == s.pushed && s'.taken == s.taken)
    || (exists x: Task :: PushedBottom(x, before, hand, s, s'))
    || (exists x: Task :: PoppedBottom(x, before, hand, s, s'))
    || (exists x: Task :: TookHand(x, before, hand, s, s'))
    || (exists x: Task :: TookTop(x, before, hand, s, s'))
  }

  ghost predicate PushedBottom(x: Task, before: seq<Task>, hand: seq<Task>, s: State, s': State)
    requires |s'.arrays| > 0 && |Current(s')| > 0
  {
    Contents(s') == before + [x] && InHand(s') == hand && s'.pushed == s.pushed + [x] && s'.taken == s.taken
  }

  /** pop decides for the bottom task ... */
  ghost predicate PoppedBottom(x: Task, before: seq<Task>, hand: seq<Task>, s: State, s': State)
    requires |s'.arrays| > 0 && |Current(s')| > 0
  {
    before == Contents(s') + [x] && hand == [] && InHand(s') == [x] && s'.pushed == s.pushed && s'.taken == s.taken
  }

  /** ... and returns it. */
  ghost predicate TookHand(x: Task, before: seq<Task>, hand: seq<Task>, s: State, s': State)
    requires |s'.arrays| > 0 && |Current(s')| > 0
  {
    Contents(s') == before && hand == [x] && InHand(s') == [] && s'.pushed == s.pushed && s'.taken == s.taken + [x]
  }

  /** A thief, or the owner competing for the last task, takes the top task. */
  ghost predicate TookTop(x: Task, before: seq<Task>, hand: seq<Task>, s: State, s': State)
    requires |s'.arrays| > 0 && |Current(s')| > 0
  {
    before == [x] + Contents(s') && InHand(s') == hand && s'.pushed == s.pushed && s'.taken == s.taken + [x]
  }

  lemma OwnerAtomic(s: State, s': State)
    requires Inv(s) && Fits(s) && OwnerStep(s, s')
    ensures Inv(s') && Atomic(Contents(s), InHand(s), s, s')
  {
    hide Gap, Slot, At;
    OwnerInv(s, s');
    var b, a := s.bottom, Current(s);
    match s.owner {
      case PushPut(_) =>
        PushPutInv(s, s');
        TasksSame(a, Current(s'), s.top, b);
      case PushGrow(_, _) =>
        PushGrowInv(s, s');
        TasksSame(a, Current(s'), s.top, b);
      case PushBottom(x) =>
        assert PushedBottom(x, Contents(s), InHand(s), s, s');
      case PopTop =>
        GapIs(b, s.top);
        if s.top < b {
          assert PoppedBottom(At(a, b), Contents(s), InHand(s), s, s');
        }
      case PopRead(t) =>
        if t != b {
          assert TookHand(At(a, b), Contents(s), InHand(s), s, s');
        }
      case PopCas(t, x) =>
        if s.top == t {
          TasksFirst(a, t, b + 1);
          assert TookTop(x, Contents(s), InHand(s), s, s');
        }
      case _ => GapIs(b, s.top);
    }
  }

  lemma ThiefAtomic(s: State, i: nat, s': State)
    requires Inv(s) && Fits(s) && i < |s.thieves| && ThiefStep(s, i, s')
    ensures Inv(s') && Atomic(Contents(s), InHand(s), s, s')
  {
    hide Gap, Slot, At;
    ThiefInv(s, i, s');
    assert ThiefOk(s, s.thieves[i]);
    if s'.top != s.top {
      TasksFirst(Current(s), s.top, Limit(s));
      assert TookTop(s.thieves[i].x, Contents(s), InHand(s), s, s');
    }
  }

  lemma CountsOf<T>(s: seq<T>, x: T)
    ensures multiset(s + [x]) == multiset(s) + multiset{x} == multiset([x] + s)
  {
  }

  lemma AtomicConserves(s: State, s': State)
    requires |s.arrays| > 0 && |Current(s)| > 0 && |s'.arrays| > 0 && |Current(s')| > 0
    requires Conserved(s) && Atomic(Contents(s), InHand(s), s, s')
    ensures Conserved(s')
  {
    hide Current, Contents, InHand, PushedBottom, PoppedBottom, TookHand, TookTop;
    var before, hand := Contents(s), InHand(s);
    if x: Task :| PushedBottom(x, before, hand, s, s') {
      PushConserves(x, s, s');
    } else if x: Task :| PoppedBottom(x, before, hand, s, s') {
      PopConserves(x, s, s');
    } else if x: Task :| TookHand(x, before, hand, s, s') {
      HandConserves(x, s, s');
    } else if x: Task :| TookTop(x, before, hand, s, s') {
      TopConserves(x, s, s');
    }
  }

  lemma PushConserves(x: Task, s: State, s': State)
    requires |s.arrays| > 0 && |Current(s)| > 0 && |s'.arrays| > 0 && |Current(s')| > 0
    requires Conserved(s) && PushedBottom(x, Contents(s), InHand(s), s, s')
    ensures Conserved(s')
  {
    hide Current, Contents, InHand;
    CountsOf(Contents(s), x);
    CountsOf(s.pushed, x);
  }

  lemma PopConserves(x: Task, s: State, s': State)
    requires |s.arrays| > 0 && |Current(s)| > 0 && |s'.arrays| > 0 && |Current(s')| > 0
    requires Conserved(s) && PoppedBottom(x, Contents(s), InHand(s), s, s')
    ensures Conserved(s')
  {
    hide Current, Contents, InHand;
    CountsOf(Contents(s'), x);
    CountsOf([], x);
  }

  lemma HandConserves(x: Task, s: State, s': State)
    requires |s.arrays| > 0 && |Current(s)| > 0 && |s'.arrays| > 0 && |Current(s')| > 0
    requires Conserved(s) && TookHand(x, Contents(s), InHand(s), s, s')
    ensures Conserved(s')
  {
    hide Current, Contents, InHand;
    CountsOf([], x);
    CountsOf(s.taken, x);
  }

  lemma TopConserves(x: Task, s: State, s': State)
    requires |s.arrays| > 0 && |Current(s)| > 0 && |s'.arrays| > 0 && |Current(s')| > 0
    requires Conserved(s) && TookTop(x, Contents(s), InHand(s), s, s')
    ensures Conserved(s')
  {
    hide Current, Contents, InHand;
    CountsOf(Contents(s'), x);
    CountsOf(s.taken, x);
  }

  lemma StepInv(s: State, s': State)
    requires Inv(s) && Conserved(s) && Fits(s) && Next(s, s')
    ensures Inv(s') && Conserved(s') && Atomic(Contents(s), InHand(s), s, s')
  {
    if |s.arrays| > 0 && |Current(s)| > 0 && OwnerStep(s, s') {
      OwnerAtomic(s, s');
    } else {
      var i: nat :| i < |s.thieves| && ThiefStep(s, i, s');
      ThiefAtomic(s, i, s');
    }
    AtomicConserves(s, s');
  }

  lemma {:induction false} RunInv(run: seq<State>, i: nat)
    requires Run(run) && i < |run|
    ensures Inv(run[i]) && Conserved(run[i]) && Published(run[i])
  {
    if i > 0 {
      RunInv(run, i - 1);
      assert Next(run[i - 1], run[i - 1 + 1]);
      StepPublished(run[i - 1], run[i]);
      StepInv(run[i - 1], run[i]);
    }
  }

  // ------------------------------------------------------------ main results

  ghost predicate Reachable(s: State) {
    exists run: seq<State> :: Run(run) && run[|run| - 1] == s
  }

  lemma ReachableInv(s: State)
    requires Reachable(s)
    ensures Inv(s) && Conserved(s) && Published(s) && Fits(s)
  {
    var run: seq<State> :| Run(run) && run[|run| - 1] == s;
    RunInv(run, |run| - 1);
  }

  /** Every step of every run acts as one operation of an atomic deque, or changes nothing. */
  lemma StepRefinesDeque(s: State, s': State)
    requires Reachable(s) && Next(s, s')
    ensures Inv(s) && Inv(s') && Atomic(Contents(s), InHand(s), s, s')
  {
    ReachableInv(s);
    StepInv(s, s');
  }

  /** Each task given to push is returned exactly once or is still there: in every reachable state a
      task occurs in what was returned, in the owner's hand, in the deque and in the push under way
      together as often as push was called with it; with the deque empty and the owner at rest
      everything has been returned. */
  lemma ExactlyOnce(s: State, x: Task)
    requires Reachable(s)
    ensures Inv(s)
    ensures multiset(s.given)[x] ==
            multiset(s.taken)[x] + multiset(InHand(s))[x] + multiset(Contents(s))[x] + multiset(InPush(s))[x]
    ensures InPush(s) == [] ==> s.pushed == s.given
    ensures s.owner == Idle && s.top == s.bottom ==> multiset(s.taken) == multiset(s.given)
  {
    ReachableInv(s);
  }

  /** A thief about to win its CAS holds the task that is now on top, whichever array it was read
      from and however often the array has been replaced since. */
  lemma StolenTaskIsTop(s: State, i: nat)
    requires Reachable(s) && i < |s.thieves| && s.thieves[i].StealCas? && s.thieves[i].t == s.top
    ensures Inv(s) && Contents(s) != [] && s.thieves[i].x == Contents(s)[0]
  {
    hide Slot, At;
    ReachableInv(s);
    assert ThiefOk(s, s.thieves[i]);
    TasksFirst(Current(s), s.top, Limit(s));
  }

  predicate InPop(p: OwnerPc) {
    p.PopPeek? || p.PopBottom? || p.PopTop? || p.PopRead? || p.PopCas?
  }

  /** pop returns nothing only at a moment when the deque is empty: no step of it decides to return
      without a task otherwise. */
  lemma PopGivesUp(s: State, s': State)
    requires Reachable(s) && |s.arrays| > 0 && |Current(s)| > 0 && OwnerStep(s, s')
    requires InPop(s.owner) && (s'.owner.Idle? || s'.owner.PopReset?) && s'.taken == s.taken
    ensures Contents(s) == []
  {
    hide Slot, At, Gap;
    ReachableInv(s);
    GapIs(s.bottom, s.top);
    assert forall x: Task :: |s.taken + [x]| == |s.taken| + 1;
  }

  /** A thief gives up, at whatever step, only when the deque is empty, or holds a single task that the
      owner is in the middle of popping. */
  lemma StealGivesUp(s: State, i: nat, s': State)
    requires Reachable(s) && i < |s.thieves| && ThiefStep(s, i, s')
    requires !s.thieves[i].Away? && s'.thieves[i].Away? && s'.taken == s.taken
    ensures Inv(s) && |Contents(s)| <= (if Claiming(s) then 1 else 0)
  {
    hide Slot, At, Gap;
    ReachableInv(s);
    if s.thieves[i].StealBottom? {
      GapIs(s.bottom, s.thieves[i].t);
      assert ThiefOk(s, s.thieves[i]);
      TasksLength(Current(s), s.top, Limit(s));
    }
    assert forall x: Task :: |s.taken + [x]| == |s.taken| + 1;
  }

  lemma {:induction false} TasksLength(a: seq<Task>, lo: int, hi: int)
    requires |a| > 0
    ensures |Tasks(a, lo, hi)| == if lo < hi then hi - lo else 0
    decreases hi - lo
  {
    if lo < hi {
      TasksLength(a, lo, hi - 1);
    }
  }

  /** The slot the code computes by masking a wrapped index is the one of the unbounded index, as
      long as the array size divides 2^64. */
  lemma SlotIsMask(i: int, size: nat, turns: nat)
    requires size > 0 && size * turns == MOD
    ensures Slot(Word(i), size) == Slot(i, size)
  {
    SlotOfWord(i, size, turns);
  }

  /** A bigger array for the tasks from t to b. */
  lemma Bigger(a: seq<Task>, t: int, b: int) returns (bigger: seq<Task>)
    requires |a| > 0 && t <= b <= t + |a|
    ensures Grown(a, bigger, t, b)
  {
    hide Slot;
    var n := 2 * |a|;
    bigger := seq(n, j requires 0 <= j < n => a[Slot(t + Slot(j - t, n), |a|)]);
    forall i | t <= i < b ensures bigger[Slot(i, n)] == a[Slot(i, |a|)] {
      SlotShift(i, -t, n);
      SlotSmall(i - t, n);
    }
  }

  /** The owner always has a next step; growing the array, it finds room for all the tasks. */
  lemma OwnerNotStuck(s: State) returns (s': State)
    requires Reachable(s)
    ensures |s.arrays| > 0 && |Current(s)| > 0 && OwnerStep(s, s')
  {
    hide Gap, Slot;
    ReachableInv(s);
    var b := s.bottom;
    match s.owner {
      case PushGrow(x, t) =>
        var bigger := Bigger(Current(s), t, b);
        s' := s.(owner := PushPut(x), arrays := s.arrays + [bigger]);
        assert s'.arrays[|s.arrays|] == bigger;
      case _ => s' := Plain(s);
    }
  }

  /** The other steps leave the owner no choice. */
  lemma Plain(s: State) returns (s': State)
    requires |s.arrays| > 0 && |Current(s)| > 0 && !s.owner.PushGrow?
    ensures OwnerStep(s, s')
  {
    hide Gap, Slot;
    var b := s.bottom;
    match s.owner {
      case Idle => s' := s.(owner := PopPeek);
      case PushTop(x) => s' := s.(owner := if Gap(b, s.top) >= |Current(s)| then PushGrow(x, s.top) else PushPut(x));
      case PushPut(x) =>
        var put := Current(s)[Slot(b, |Current(s)|) := x];
        s' := s.(owner := PushBottom(x), arrays := s.arrays[|s.arrays| - 1 := put]);
      case PushBottom(x) => s' := s.(owner := Idle, bottom := b + 1, pushed := s.pushed + [x]);
      case PopPeek => s' := s.(owner := if Gap(b, s.top) <= 0 then Idle else PopBottom);
      case PopBottom => s' := s.(owner := PopTop, bottom := b - 1);
      case PopTop => s' := s.(owner := if Gap(b, s.top) < 0 then PopReset else PopRead(s.top));
      case PopRead(t) =>
        var x := At(Current(s), b);
        s' := if b == t then s.(owner := PopCas(t, x)) else s.(owner := Idle, taken := s.taken + [x]);
      case PopCas(t, x) =>
        s' := if s.top == t then s.(owner := PopReset, top := t + 1, taken := s.taken + [x]) else s.(owner := PopReset);
      case PopReset => s' := s.(owner := Idle, bottom := b + 1);
    }
  }

  /** A thief always has one too, and one that takes the task if nobody has moved top. */
  lemma ThiefNotStuck(s: State, i: nat) returns (s': State)
    requires Reachable(s) && i < |s.thieves|
    ensures ThiefStep(s, i, s')
    ensures s.thieves[i].StealCas? && s.thieves[i].t == s.top ==> s'.taken == s.taken + [s.thieves[i].x]
  {
    hide Gap, Slot;
    ReachableInv(s);
    assert ThiefOk(s, s.thieves[i]);
    match s.thieves[i] {
      case Away => s' := Goes(s, i, StealTop);
      case StealTop => s' := Goes(s, i, StealBottom(s.top));
      case StealBottom(t) => s' := Goes(s, i, if Gap(s.bottom, t) <= 0 then Away else StealArray(t));
      case StealArray(t) => s' := Goes(s, i, StealRead(t, |s.arrays| - 1));
      case StealRead(t, a) => s' := Goes(s, i, StealCas(t, At(s.arrays[a], t)));
      case StealCas(t, x) =>
        s' := if s.top == t then Goes(s, i, Away).(top := t + 1, taken := s.taken + [x]) else Goes(s, i, StealTop);
    }
  }
}
