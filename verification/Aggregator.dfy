/** The aggregator: threads push operations on a mailbox; whoever pushes on an empty one becomes the
    next handler, waits until no handler is busy, takes the whole mailbox and carries out what is in it.

    Threads interleave one access at a time.  An operation lives on its thread's stack, so that it is
    named by the thread's number and the same address serves for every call of that thread.
    `place`, `mail`, `todo`, `handler`, `calls` and `applied` are history: no step looks at them. */
module Aggregator {
  import opened Links

  datatype Pc =
    | Idle
    | Read                           // execute_impl: load the mailbox
    | Store(res: Link)               //   store it in the operation's my_next
    | Cas(res: Link)                 //   CAS the mailbox to the operation
    | SpinBusy                       // first in the list: wait until handler_busy is 0
    | SetBusy                        //   store 1 in it
    | Grab                           //   exchange the mailbox with NULL
    | Walk(list: Link)               // the handler's loop: load the operation's my_next
    | Apply(op: Node, list: Link)    //   apply its body
    | Finish(op: Node, list: Link)   //   store its status
    | Release                        // store 0 in handler_busy
    | Check                          // the assertion on the own status, and return
    | SpinStatus                     // not first: wait for the own status

  /** Where a thread's operation is. */
  datatype Place = Out | Building | Mailed | Queued | Taken | Applied | Done

  datatype State = State(
    pc: seq<Pc>,
    mailbox: Link,
    busy: bool,
    next: seq<Link>,
    finished: seq<bool>,
    place: seq<Place>,
    mail: seq<Node>,
    todo: seq<Node>,
    handler: Link,
    calls: seq<nat>,
    applied: seq<nat>)

  ghost predicate Sizes(s: State) {
    |s.pc| == |s.next| == |s.finished| == |s.place| == |s.calls| == |s.applied|
  }

  ghost predicate Init(s: State) {
    && Sizes(s)
    && s.mailbox == Nil && !s.busy && s.mail == [] && s.todo == [] && s.handler == Nil
    && (forall t :: 0 <= t < |s.pc| ==> s.pc[t] == Idle)
    && (forall t :: 0 <= t < |s.pc| ==> s.place[t] == Out)
    && (forall t :: 0 <= t < |s.pc| ==> s.calls[t] == 0)
    && (forall t :: 0 <= t < |s.pc| ==> s.applied[t] == 0)
  }

  // ------------------------------------------------------------------ steps

  predicate Enabled(s: State, t: nat) {
    && t < |s.pc| == |s.next| == |s.finished| == |s.place| == |s.calls| == |s.applied|
    && (s.pc[t].Walk? && s.pc[t].list.To? ==> s.pc[t].list.node < |s.pc|)
    && (s.pc[t].Apply? || s.pc[t].Finish? ==> s.pc[t].op < |s.pc|)
    && (forall i :: 0 <= i < |s.mail| ==> s.mail[i] < |s.pc|)
  }

  function AllQueued(place: seq<Place>, mail: seq<Node>): (q: seq<Place>)
    ensures |q| == |place|
  {
    seq(|place|, i requires 0 <= i < |place| => if i in mail then Queued else place[i])
  }

  /** The state after thread t's next access; an idle thread begins a call. */
  function Access(s: State, t: nat): State
    requires Enabled(s, t)
  {
    match s.pc[t]
    case Idle =>
      s.(pc := s.pc[t := Read], finished := s.finished[t := false], place := s.place[t := Building],
         calls := s.calls[t := s.calls[t] + 1])
    case Read =>
      s.(pc := s.pc[t := Store(s.mailbox)])
    case Store(res) =>
      s.(pc := s.pc[t := Cas(res)], next := s.next[t := res])
    case Cas(res) =>
      if s.mailbox == res
      then s.(pc := s.pc[t := if res == Nil then SpinBusy else SpinStatus], mailbox := To(t),
              place := s.place[t := Mailed], mail := [t] + s.mail)
      else s.(pc := s.pc[t := Read])
    case SpinBusy =>
      s.(pc := s.pc[t := if s.busy then SpinBusy else SetBusy])
    case SetBusy =>
      s.(pc := s.pc[t := Grab], busy := true, handler := To(t))
    case Grab =>
      s.(pc := s.pc[t := Walk(s.mailbox)], mailbox := Nil, place := AllQueued(s.place, s.mail),
         mail := [], todo := s.mail)
    case Walk(list) =>
      if list == Nil
      then s.(pc := s.pc[t := Release])
      else
        var o := list.node;
        s.(pc := s.pc[t := Apply(o, s.next[o])], place := s.place[o := Taken],
           todo := if s.todo == [] then [] else s.todo[1..])
    case Apply(o, list) =>
      s.(pc := s.pc[t := Finish(o, list)], place := s.place[o := Applied],
         applied := s.applied[o := s.applied[o] + 1])
    case Finish(o, list) =>
      s.(pc := s.pc[t := Walk(list)], finished := s.finished[o := true], place := s.place[o := Done])
    case Release =>
      s.(pc := s.pc[t := Check], busy := false, handler := Nil)
    case Check =>
      s.(pc := s.pc[t := Idle], place := s.place[t := Out])
    case SpinStatus =>
      if s.finished[t] then s.(pc := s.pc[t := Idle], place := s.place[t := Out]) else s
  }

  ghost predicate StepOf(s: State, t: nat, s': State) {
    Enabled(s, t) && s' == Access(s, t)
  }

  ghost predicate Next(s: State, s': State) {
    exists t: nat :: StepOf(s, t, s')
  }

  /** A run: any interleaving of any number of threads. */
  ghost predicate Run(run: seq<State>) {
    && |run| > 0 && Init(run[0])
    && (forall i :: 0 <= i < |run| - 1 ==> Next(run[i], run[i + 1]))
  }

  ghost predicate Reachable(s: State) {
    exists run: seq<State> :: Run(run) && run[|run| - 1] == s
  }

  // -------------------------------------------------------------- invariant

  /** Between becoming first in the mailbox and taking it. */
  predicate Leading(p: Pc) {
    p.SpinBusy? || p.SetBusy? || p.Grab?
  }

  /** Between setting handler_busy and clearing it. */
  predicate Handling(p: Pc) {
    p.Grab? || p.Walk? || p.Apply? || p.Finish? || p.Release?
  }

  predicate Unapplied(p: Place) {
    p.Building? || p.Mailed? || p.Queued? || p.Taken?
  }

  ghost predicate OpOk(s: State, t: nat)
    requires Sizes(s) && t < |s.pc|
  {
    var p := s.place[t];
    && (p.Done? ==> s.finished[t])
    && (Unapplied(p) || p.Applied? ==> !s.finished[t])
    && s.applied[t] + (if Unapplied(p) then 1 else 0) == s.calls[t]
    && (t in s.mail <==> p.Mailed?)
    && (t in s.todo <==> p.Queued?)
    && (p.Taken? ==>
        && s.handler.To? && s.handler.node < |s.pc| && s.pc[s.handler.node].Apply?
        && s.pc[s.handler.node].op == t)
    && (p.Applied? ==>
        && s.handler.To? && s.handler.node < |s.pc| && s.pc[s.handler.node].Finish?
        && s.pc[s.handler.node].op == t)
  }

  ghost predicate PcOk(s: State, t: nat)
    requires Sizes(s) && t < |s.pc|
  {
    var p, place := s.pc[t], s.place[t];
    && (p.Idle? ==> place.Out?)
    && (p.Read? || p.Store? || p.Cas? ==> place.Building?)
    && (p.Cas? ==> s.next[t] == p.res)
    && (Leading(p) ==> place.Mailed? && s.mail != [] && s.mail[|s.mail| - 1] == t)
    && (p.SetBusy? ==> s.handler == Nil)
    && (p.Grab? ==> s.todo == [])
    && (Handling(p) ==> s.handler == To(t))
    && (p.Walk? ==> Chain(s.next, p.list, s.todo) && (place.Queued? || place.Done?))
    && (p.Apply? ==>
        && p.op < |s.pc| && s.place[p.op].Taken? && Chain(s.next, p.list, s.todo)
        && (place.Queued? || place.Taken? || place.Done?))
    && (p.Finish? ==>
        && p.op < |s.pc| && s.place[p.op].Applied? && Chain(s.next, p.list, s.todo)
        && (place.Queued? || place.Applied? || place.Done?))
    && (p.Release? ==> s.todo == [] && place.Done?)
    && (p.Check? ==> place.Done?)
    && (p.SpinStatus? ==>
        && !place.Out? && !place.Building?
        && (place.Mailed? ==> s.mail != [] && s.mail[|s.mail| - 1] != t))
  }

  ghost predicate ListsOk(s: State) {
    && Chain(s.next, s.mailbox, s.mail)
    && (forall i :: 0 <= i < |s.mail| ==> s.mail[i] < |s.pc|)
    && (s.mail != [] ==> Leading(s.pc[s.mail[|s.mail| - 1]]))
    && (s.busy <==> s.handler.To?)
    && (s.handler == Nil ==> s.todo == [])
    && (s.handler.To? ==> s.handler.node < |s.pc| && Handling(s.pc[s.handler.node]))
  }

  ghost predicate Inv(s: State) {
    && Sizes(s)
    && ListsOk(s)
    && (forall t :: 0 <= t < |s.pc| ==> OpOk(s, t))
    && (forall t :: 0 <= t < |s.pc| ==> PcOk(s, t))
  }

  lemma InitInv(s: State)
    requires Init(s)
    ensures Inv(s)
  {
  }

  lemma StepInv(s: State, t: nat, s': State)
    requires Inv(s) && StepOf(s, t, s')
    ensures Inv(s')
  {
    match s.pc[t] {
      case Idle => IdleInv(s, t);
      case Read => ReadInv(s, t);
      case Store(_) => StoreInv(s, t);
      case Cas(_) => CasInv(s, t);
      case SpinBusy => SpinBusyInv(s, t);
      case SetBusy => SetBusyInv(s, t);
      case Grab => GrabInv(s, t);
      case Walk(_) => WalkInv(s, t);
      case Apply(_, _) => ApplyInv(s, t);
      case Finish(_, _) => FinishInv(s, t);
      case Release => ReleaseInv(s, t);
      case Check => CheckInv(s, t);
      case SpinStatus => SpinStatusInv(s, t);
    }
  }

  lemma IdleInv(s: State, t: nat)
    requires Inv(s) && Enabled(s, t) && s.pc[t].Idle?
    ensures Inv(Access(s, t))
  {
    hide Chain;
    var s' := Access(s, t);
    assert PcOk(s, t) && OpOk(s, t);
    forall u | 0 <= u < |s.pc| ensures OpOk(s', u) && PcOk(s', u) {
      assert OpOk(s, u) && PcOk(s, u);
    }
  }

  lemma ReadInv(s: State, t: nat)
    requires Inv(s) && Enabled(s, t) && s.pc[t].Read?
    ensures Inv(Access(s, t))
  {
    hide Chain;
    var s' := Access(s, t);
    assert PcOk(s, t) && OpOk(s, t);
    forall u | 0 <= u < |s.pc| ensures OpOk(s', u) && PcOk(s', u) {
      assert OpOk(s, u) && PcOk(s, u);
    }
  }

  lemma StoreInv(s: State, t: nat)
    requires Inv(s) && Enabled(s, t) && s.pc[t].Store?
    ensures Inv(Access(s, t))
  {
    hide Chain;
    var s' := Access(s, t);
    var res := s.pc[t].res;
    assert PcOk(s, t) && OpOk(s, t);
    ChainFrame(s.next, s.mailbox, s.mail, t, res);
    forall u | 0 <= u < |s.pc| ensures OpOk(s', u) && PcOk(s', u) {
      assert OpOk(s, u) && PcOk(s, u);
      if s.pc[u].Walk? || s.pc[u].Apply? || s.pc[u].Finish? {
        ChainFrame(s.next, s.pc[u].list, s.todo, t, res);
      }
    }
  }

  lemma CasInv(s: State, t: nat)
    requires Inv(s) && Enabled(s, t) && s.pc[t].Cas?
    ensures Inv(Access(s, t))
  {
    if s.mailbox == s.pc[t].res {
      MailedInv(s, t);
    } else {
      RetryInv(s, t);
    }
  }

  lemma RetryInv(s: State, t: nat)
    requires Inv(s) && Enabled(s, t) && s.pc[t].Cas? && s.mailbox != s.pc[t].res
    ensures Inv(Access(s, t))
  {
    hide Chain;
    var s' := Access(s, t);
    assert PcOk(s, t) && OpOk(s, t);
    forall u | 0 <= u < |s.pc| ensures OpOk(s', u) && PcOk(s', u) {
      assert OpOk(s, u) && PcOk(s, u);
    }
  }

  lemma MailedInv(s: State, t: nat)
    requires Inv(s) && Enabled(s, t) && s.pc[t].Cas? && s.mailbox == s.pc[t].res
    ensures Inv(Access(s, t))
  {
    hide Chain;
    var s' := Access(s, t);
    assert PcOk(s, t) && OpOk(s, t);
    ChainPush(s.next, s.mailbox, s.mail, t);
    ChainEnds(s.next, s.mailbox, s.mail);
    forall u | 0 <= u < |s.pc| ensures OpOk(s', u) && PcOk(s', u) {
      assert OpOk(s, u) && PcOk(s, u);
    }
  }

  lemma ChainEnds(next: seq<Link>, head: Link, list: seq<Node>)
    requires Chain(next, head, list)
    ensures head == Nil <==> list == []
  {
  }

  lemma SpinBusyInv(s: State, t: nat)
    requires Inv(s) && Enabled(s, t) && s.pc[t].SpinBusy?
    ensures Inv(Access(s, t))
  {
    hide Chain;
    var s' := Access(s, t);
    assert PcOk(s, t) && OpOk(s, t);
    forall u | 0 <= u < |s.pc| ensures OpOk(s', u) && PcOk(s', u) {
      assert OpOk(s, u) && PcOk(s, u);
    }
  }

  lemma SetBusyInv(s: State, t: nat)
    requires Inv(s) && Enabled(s, t) && s.pc[t].SetBusy?
    ensures Inv(Access(s, t))
  {
    hide Chain;
    var s' := Access(s, t);
    assert PcOk(s, t) && OpOk(s, t);
    forall u | 0 <= u < |s.pc| ensures OpOk(s', u) && PcOk(s', u) {
      assert OpOk(s, u) && PcOk(s, u);
    }
  }

  lemma GrabInv(s: State, t: nat)
    requires Inv(s) && Enabled(s, t) && s.pc[t].Grab?
    ensures Inv(Access(s, t))
  {
    var s' := Access(s, t);
    assert PcOk(s, t) && OpOk(s, t);
    forall u | 0 <= u < |s.pc| ensures OpOk(s', u) && PcOk(s', u) {
      assert OpOk(s, u) && PcOk(s, u);
    }
  }

  lemma WalkInv(s: State, t: nat)
    requires Inv(s) && Enabled(s, t) && s.pc[t].Walk?
    ensures Inv(Access(s, t))
  {
    var s' := Access(s, t);
    assert PcOk(s, t) && OpOk(s, t);
    forall u | 0 <= u < |s.pc| ensures OpOk(s', u) && PcOk(s', u) {
      assert OpOk(s, u) && PcOk(s, u);
    }
  }

  lemma ApplyInv(s: State, t: nat)
    requires Inv(s) && Enabled(s, t) && s.pc[t].Apply?
    ensures Inv(Access(s, t))
  {
    hide Chain;
    var s' := Access(s, t);
    assert PcOk(s, t) && OpOk(s, t);
    forall u | 0 <= u < |s.pc| ensures OpOk(s', u) && PcOk(s', u) {
      assert OpOk(s, u) && PcOk(s, u);
    }
  }

  lemma FinishInv(s: State, t: nat)
    requires Inv(s) && Enabled(s, t) && s.pc[t].Finish?
    ensures Inv(Access(s, t))
  {
    hide Chain;
    var s' := Access(s, t);
    assert PcOk(s, t) && OpOk(s, t);
    forall u | 0 <= u < |s.pc| ensures OpOk(s', u) && PcOk(s', u) {
      assert OpOk(s, u) && PcOk(s, u);
    }
  }

  lemma ReleaseInv(s: State, t: nat)
    requires Inv(s) && Enabled(s, t) && s.pc[t].Release?
    ensures Inv(Access(s, t))
  {
    hide Chain;
    var s' := Access(s, t);
    assert PcOk(s, t) && OpOk(s, t);
    forall u | 0 <= u < |s.pc| ensures OpOk(s', u) && PcOk(s', u) {
      assert OpOk(s, u) && PcOk(s, u);
    }
  }

  lemma CheckInv(s: State, t: nat)
    requires Inv(s) && Enabled(s, t) && s.pc[t].Check?
    ensures Inv(Access(s, t))
  {
    hide Chain;
    var s' := Access(s, t);
    assert PcOk(s, t) && OpOk(s, t);
    forall u | 0 <= u < |s.pc| ensures OpOk(s', u) && PcOk(s', u) {
      assert OpOk(s, u) && PcOk(s, u);
    }
  }

  lemma SpinStatusInv(s: State, t: nat)
    requires Inv(s) && Enabled(s, t) && s.pc[t].SpinStatus?
    ensures Inv(Access(s, t))
  {
    hide Chain;
    var s' := Access(s, t);
    assert PcOk(s, t) && OpOk(s, t);
    forall u | 0 <= u < |s.pc| ensures OpOk(s', u) && PcOk(s', u) {
      assert OpOk(s, u) && PcOk(s, u);
    }
  }

  lemma {:induction false} RunInv(run: seq<State>, i: nat)
    requires Run(run) && i < |run|
    ensures Inv(run[i])
  {
    hide Inv, StepOf;
    if i == 0 {
      InitInv(run[0]);
    } else {
      RunInv(run, i - 1);
      assert Next(run[i - 1], run[i]);
      var t: nat :| StepOf(run[i - 1], t, run[i]);
      StepInv(run[i - 1], t, run[i]);
    }
  }

  lemma ReachableInv(s: State)
    requires Reachable(s)
    ensures Inv(s)
  {
    var run :| Run(run) && run[|run| - 1] == s;
    RunInv(run, |run| - 1);
  }

  // ----------------------------------------------------------- main results

  /** At most one thread waits for the handler to become free, or is about to take over. */
  lemma OneLeader(s: State, t: nat, u: nat)
    requires Reachable(s) && t < |s.pc| && u < |s.pc| && Leading(s.pc[t]) && Leading(s.pc[u])
    ensures t == u
  {
    ReachableInv(s);
    assert PcOk(s, t) && PcOk(s, u);
  }

  /** Although handler_busy is tested and set in two accesses, at most one thread handles operations,
      and none does while another is between the test and the set. */
  lemma MutualExclusion(s: State, t: nat, u: nat)
    requires Reachable(s) && t < |s.pc| && u < |s.pc| && Handling(s.pc[t])
    requires Handling(s.pc[u]) || s.pc[u].SetBusy?
    ensures t == u && Handling(s.pc[u])
  {
    ReachableInv(s);
    assert PcOk(s, t) && PcOk(s, u);
  }

  /** Each call's operation is applied at most once, and not before the call. */
  lemma AtMostOnce(s: State, t: nat)
    requires Reachable(s) && t < |s.pc|
    ensures t < |s.calls| && t < |s.applied| && s.applied[t] <= s.calls[t] <= s.applied[t] + 1
  {
    ReachableInv(s);
    assert OpOk(s, t);
  }

  /** A call returns only when its operation has been applied: exactly once in all. */
  lemma ReturnsApplied(s: State, t: nat)
    requires Reachable(s) && Enabled(s, t) && Access(s, t).pc[t] == Idle
    ensures s.applied[t] == s.calls[t] && s.finished[t]
  {
    ReachableInv(s);
    assert OpOk(s, t) && PcOk(s, t);
  }

  /** Between calls every operation of the thread has been applied. */
  lemma IdleApplied(s: State, t: nat)
    requires Reachable(s) && t < |s.pc| && s.pc[t] == Idle
    ensures t < |s.calls| && t < |s.applied| && s.applied[t] == s.calls[t]
  {
    ReachableInv(s);
    assert OpOk(s, t) && PcOk(s, t);
  }

  /** Whenever the handler reads, applies or finishes an operation, that operation's own thread is
      still in the call and has not been released: no operation is touched after its finish. */
  lemma NotTouchedAfterFinish(s: State, t: nat, o: nat)
    requires Reachable(s) && Enabled(s, t)
    requires (s.pc[t].Walk? && s.pc[t].list == To(o)) || (s.pc[t].Apply? && s.pc[t].op == o)
             || (s.pc[t].Finish? && s.pc[t].op == o)
    ensures o < |s.pc| && !s.finished[o]
    ensures o == t || s.pc[o] == SpinStatus
    ensures s.calls[o] == s.applied[o] + (if s.pc[t].Finish? then 0 else 1)
  {
    ReachableInv(s);
    assert PcOk(s, t);
    assert OpOk(s, o) && PcOk(s, o) && PcOk(s, t);
  }

  /** Nobody is stuck: while some call is under way, some thread in a call can make a step that is not
      one more round of waiting. */
  lemma NoDeadlock(s: State, t: nat) returns (u: nat)
    requires Reachable(s) && t < |s.pc| && s.pc[t] != Idle
    ensures Enabled(s, u) && s.pc[u] != Idle && Access(s, u) != s
  {
    hide Inv, Access;
    ReachableInv(s);
    u := SomeoneFree(s, t);
    AlwaysEnabled(s, u);
    FreeMoves(s, u);
  }

  /** One of the two waits, and what is waited for is not there. */
  predicate Blocked(s: State, t: nat)
    requires t < |s.pc| && t < |s.finished|
  {
    (s.pc[t].SpinBusy? && s.busy) || (s.pc[t].SpinStatus? && !s.finished[t])
  }

  lemma FreeMoves(s: State, t: nat)
    requires Enabled(s, t) && s.pc[t] != Idle && !Blocked(s, t)
    ensures Access(s, t) != s
  {
    assert Access(s, t).pc[t] != s.pc[t];
  }

  lemma SomeoneFree(s: State, t: nat) returns (u: nat)
    requires Inv(s) && t < |s.pc| && s.pc[t] != Idle
    ensures u < |s.pc| && u < |s.finished| && s.pc[u] != Idle && !Blocked(s, u)
  {
    hide Chain;
    assert OpOk(s, t) && PcOk(s, t);
    u := t;
    if s.pc[t].SpinStatus? && s.place[t].Mailed? {
      u := s.mail[|s.mail| - 1];
    }
    if Blocked(s, u) {
      u := s.handler.node;
    }
  }

  lemma AlwaysEnabled(s: State, t: nat)
    requires Inv(s) && t < |s.pc|
    ensures Enabled(s, t)
  {
    assert PcOk(s, t);
  }
}
