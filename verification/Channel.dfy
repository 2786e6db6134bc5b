/** The Go-style channel of capacity n: blocking sends and receives, and the non-blocking ones a select
    makes.  Everything happens under one mutex, so that each critical section is one step, from where
    a thread gets the mutex to where it leaves it or waits.  A thread that waits on a condition
    variable sleeps until it is notified, or wakes for no reason, and then looks again; notifying is
    a step of its own, after the mutex has been left, and wakes any one of the sleepers.  At most one
    end of a channel may be in selects: `selectSend` says which.  `sent`, `received`
    and `accepted` are history. */
module Channel {
  import opened Counting

  type Value = int

  datatype Msg = Msg(sender: nat, value: Value)

  datatype Cv = BeginCv | EndCv | RecvCv

  datatype Pc =
    | Idle
    | SendBegin(v: Value, asleep: bool)   // _send: waiting until the value may be enqueued
    | Enqueued(i: nat)                    //   message number i is in: notify a receiver
    | SendEnd(i: nat, asleep: bool)       //   wait until the queue is not full
    | Receiving(asleep: bool)             // recv: waiting until the queue is not empty
    | Telling(cv: Cv)                     // the last thing of a call: notify

  datatype State = State(
    n: nat,
    selectSend: bool,
    pc: seq<Pc>,
    queue: seq<Msg>,
    sendDone: bool,
    trySendDone: bool,
    recvReady: bool,
    trySendReady: bool,
    tryRecvReady: bool,
    sent: seq<Msg>,
    received: seq<Msg>,
    accepted: seq<seq<Value>>)   // for each thread, what it has called send with, or try_send with success

  ghost predicate Init(s: State) {
    && (forall t :: 0 <= t < |s.pc| ==> s.pc[t] == Idle)
    && s.queue == s.sent == s.received == []
    && |s.accepted| == |s.pc| && (forall t :: 0 <= t < |s.pc| ==> s.accepted[t] == [])
    && s.sendDone && s.trySendDone && !s.recvReady && !s.trySendReady && !s.tryRecvReady
  }

  // ------------------------------------------------------------------ steps

  predicate Full(s: State) {
    |s.queue| > s.n
  }

  /** What a blocking send waits for first. */
  predicate CanBegin(s: State) {
    s.sendDone && s.trySendDone && !Full(s)
  }

  predicate SleepsAt(p: Pc, cv: Cv) {
    match cv
    case BeginCv => p.SendBegin? && p.asleep
    case EndCv => p.SendEnd? && p.asleep
    case RecvCv => p.Receiving? && p.asleep
  }

  predicate SomeSleeper(s: State, cv: Cv) {
    exists u :: 0 <= u < |s.pc| && SleepsAt(s.pc[u], cv)
  }

  predicate Asleep(p: Pc) {
    (p.SendBegin? || p.SendEnd? || p.Receiving?) && p.asleep
  }

  datatype Act =
    | Send(v: Value)
    | TrySend(v: Value)
    | Recv
    | TryRecv
    | Go
    | Wake(u: nat)        // the notification goes to u

  predicate CanNotify(s: State, cv: Cv, a: Act) {
    if SomeSleeper(s, cv) then a.Wake? && a.u < |s.pc| && SleepsAt(s.pc[a.u], cv) else a.Go?
  }

  predicate Enabled(s: State, t: nat, a: Act) {
    && t < |s.pc| == |s.accepted|
    && match s.pc[t]
       case Idle => a.Send? || a.Recv? || (a.TrySend? && s.selectSend) || (a.TryRecv? && !s.selectSend)
       case Enqueued(_) => CanNotify(s, RecvCv, a)
       case Telling(cv) => CanNotify(s, cv, a)
       case _ => a.Go?
  }

  function WakeUp(p: Pc): Pc {
    match p
    case SendBegin(v, _) => SendBegin(v, false)
    case SendEnd(i, _) => SendEnd(i, false)
    case Receiving(_) => Receiving(false)
    case _ => p
  }

  function Goes(s: State, t: nat, p: Pc): State
    requires t < |s.pc|
  {
    s.(pc := s.pc[t := p])
  }

  /** What try_send looks at before it gives up. */
  predicate TrySendFails(s: State) {
    !s.sendDone || !s.trySendDone || Full(s) || (s.n - |s.queue| == 0 && !s.recvReady)
  }

  function Enqueue(s: State, m: Msg): State {
    s.(queue := s.queue + [m], sent := s.sent + [m])
  }

  function Accepts(s: State, t: nat, v: Value): State
    requires t < |s.accepted|
  {
    s.(accepted := s.accepted[t := s.accepted[t] + [v]])
  }

  /** The first critical section of _send, entered or resumed. */
  function Begin(s: State, t: nat, v: Value): State
    requires t < |s.pc|
  {
    if CanBegin(s)
    then Goes(Enqueue(s, Msg(t, v)).(sendDone := false), t, Enqueued(|s.sent|))
    else Goes(s, t, SendBegin(v, true))
  }

  /** The second one. */
  function End(s: State, t: nat, i: nat): State
    requires t < |s.pc|
  {
    if Full(s) then Goes(s, t, SendEnd(i, true)) else Goes(s.(sendDone := true), t, Telling(BeginCv))
  }

  function Dequeue(s: State): State
    requires s.queue != []
  {
    s.(queue := s.queue[1..], received := s.received + [s.queue[0]], trySendDone := true,
       tryRecvReady := false, trySendReady := false)
  }

  /** Whom a completed receive notifies: a pending send if there is one, or else one that would like
      to begin. */
  function AfterReceive(s: State): Pc {
    Telling(if s.sendDone then BeginCv else EndCv)
  }

  /** The critical section of recv, entered or resumed. */
  function Take(s: State, t: nat): State
    requires t < |s.pc|
  {
    if s.queue == []
    then Goes(s, t, Receiving(true))
    else Goes(Dequeue(s).(recvReady := false), t, AfterReceive(s))
  }

  function DoTrySend(s: State, t: nat, v: Value): State
    requires t < |s.pc| == |s.accepted|
  {
    var s1 := s.(trySendReady := true);
    if TrySendFails(s1) then s1
    else Goes(Enqueue(Accepts(s1, t, v).(trySendDone := 0 < s.n - |s.queue|), Msg(t, v)), t, Telling(RecvCv))
  }

  function DoTryRecv(s: State, t: nat): State
    requires t < |s.pc|
  {
    var s1 := s.(tryRecvReady := true);
    if s.queue == [] then s1 else Goes(Dequeue(s1), t, AfterReceive(s))
  }

  function Notify(s: State, t: nat, a: Act, p: Pc): State
    requires t < |s.pc| && (a.Wake? ==> a.u < |s.pc|)
  {
    Goes(if a.Wake? then Goes(s, a.u, WakeUp(s.pc[a.u])) else s, t, p)
  }

  /** The state after thread t's next step. */
  function Access(s: State, t: nat, a: Act): State
    requires Enabled(s, t, a)
  {
    match s.pc[t]
    case Idle =>
      (match a
       case Send(v) => Begin(Accepts(s, t, v), t, v)
       case TrySend(v) => DoTrySend(s, t, v)
       case Recv => Take(s.(recvReady := true), t)
       case _ => DoTryRecv(s, t))
    case SendBegin(v, asleep) => if asleep then Goes(s, t, SendBegin(v, false)) else Begin(s, t, v)
    case Enqueued(i) => Notify(s, t, a, SendEnd(i, false))
    case SendEnd(i, asleep) => if asleep then Goes(s, t, SendEnd(i, false)) else End(s, t, i)
    case Receiving(asleep) => if asleep then Goes(s, t, Receiving(false)) else Take(s, t)
    case Telling(_) => Notify(s, t, a, Idle)
  }

  ghost predicate StepOf(s: State, t: nat, a: Act, s': State) {
    Enabled(s, t, a) && s' == Access(s, t, a)
  }

  ghost predicate Next(s: State, s': State) {
    exists t: nat, a :: StepOf(s, t, a, s')
  }

  /** A run: any interleaving of any number of senders and receivers. */
  ghost predicate Run(run: seq<State>) {
    && |run| > 0 && Init(run[0])
    && (forall i :: 0 <= i < |run| - 1 ==> Next(run[i], run[i + 1]))
  }

  ghost predicate Reachable(s: State) {
    exists run: seq<State> :: Run(run) && run[|run| - 1] == s
  }

  // -------------------------------------------------------------- invariant

  /** A send that has enqueued its value and not returned. */
  predicate Pending(p: Pc) {
    p.Enqueued? || p.SendEnd?
  }

  ghost predicate SomeReceiver(s: State) {
    exists t :: 0 <= t < |s.pc| && s.pc[t].Receiving?
  }

  ghost predicate SomePending(s: State) {
    exists t :: 0 <= t < |s.pc| && Pending(s.pc[t])
  }

  ghost predicate OneSender(s: State) {
    && (forall t :: 0 <= t < |s.pc| && Pending(s.pc[t]) ==> !s.sendDone && s.pc[t].i < |s.sent|)
    && (forall t, u :: 0 <= t < u < |s.pc| ==> !(Pending(s.pc[t]) && Pending(s.pc[u])))
    && (!s.sendDone ==> SomePending(s))
  }

  /** A full queue was filled by the pending send, or by a try_send for a receiver that waits. */
  ghost predicate FlagsOk(s: State) {
    && |s.queue| <= s.n + 1
    && (s.sendDone || s.trySendDone)
    && (Full(s) ==> !s.sendDone || !s.trySendDone)
    && (!s.trySendDone ==> s.recvReady && Full(s))
    && (s.recvReady ==> SomeReceiver(s))
    && (if s.selectSend then !s.tryRecvReady else !s.trySendReady && s.trySendDone)
  }

  /** Without selects at the sending end, the last message of a full queue is that of the send that
      is pending. */
  ghost predicate LastOk(s: State) {
    && (forall t :: 0 <= t < |s.pc| && Pending(s.pc[t]) ==> s.pc[t].i < |s.sent| && s.sent[s.pc[t].i].sender == t)
    && (!s.selectSend ==> forall t :: 0 <= t < |s.pc| && Pending(s.pc[t]) ==> s.pc[t].i == |s.sent| - 1)
  }

  /** Threads that will look into the queue, or have a receiver do so. */
  function Looks(p: Pc): int {
    if p == Receiving(false) || p.Enqueued? || p == Telling(RecvCv) then 1 else 0
  }

  /** Threads that will look whether a send may begin, or have a sender do so. */
  predicate Starts(p: Pc) {
    (p.SendBegin? && !p.asleep) || p == Telling(BeginCv)
  }

  ghost predicate SomeStarts(s: State) {
    exists t :: 0 <= t < |s.pc| && Starts(s.pc[t])
  }

  ghost predicate SomeTellsEnd(s: State) {
    exists t :: 0 <= t < |s.pc| && s.pc[t] == Telling(EndCv)
  }

  /** While a receiver sleeps, there are as many threads to look as there are messages. */
  ghost predicate RecvOk(s: State) {
    SomeSleeper(s, RecvCv) ==> |s.queue| <= Total(s.pc, Looks)
  }

  ghost predicate BeginOk(s: State) {
    SomeSleeper(s, BeginCv) && CanBegin(s) ==> SomeStarts(s)
  }

  ghost predicate EndOk(s: State) {
    SomeSleeper(s, EndCv) && !Full(s) ==> SomeTellsEnd(s)
  }

  /** What thread t has sent, in order. */
  ghost function From(sent: seq<Msg>, t: nat): seq<Value> {
    if sent == [] then []
    else
      var last := sent[|sent| - 1];
      From(sent[..|sent| - 1], t) + if last.sender == t then [last.value] else []
  }

  ghost predicate SentBy(accepted: seq<seq<Value>>, sent: seq<Msg>, pc: seq<Pc>, t: nat)
    requires t < |accepted| == |pc|
  {
    accepted[t] == From(sent, t) + if pc[t].SendBegin? then [pc[t].v] else []
  }

  /** Each thread's values are sent in the order of its calls, none left out but that of a call that is
      still waiting to begin. */
  ghost predicate AllSent(s: State) {
    |s.accepted| == |s.pc| && forall t :: 0 <= t < |s.pc| ==> SentBy(s.accepted, s.sent, s.pc, t)
  }

  ghost predicate Flow(s: State) {
    OneSender(s) && FlagsOk(s) && LastOk(s) && s.received + s.queue == s.sent
  }

  ghost predicate Inv(s: State) {
    Flow(s) && RecvOk(s) && BeginOk(s) && EndOk(s) && AllSent(s)
  }

  lemma InitInv(s: State)
    requires Init(s)
    ensures Inv(s)
  {
  }

  // ----------------------------------------------------- the queue and flags

  /** What there is of receivers and pending sends, if it is not thread t, is still there. */
  lemma OthersStay(s: State, s': State, t: nat)
    requires t < |s.pc| == |s'.pc| && s'.pc == s.pc[t := s'.pc[t]]
    ensures SomeReceiver(s) && (s.pc[t].Receiving? ==> s'.pc[t].Receiving?) ==> SomeReceiver(s')
    ensures SomePending(s) && (Pending(s.pc[t]) ==> Pending(s'.pc[t])) ==> SomePending(s')
    ensures Pending(s'.pc[t]) ==> SomePending(s')
    ensures s'.pc[t].Receiving? ==> SomeReceiver(s')
  {
    if u :| 0 <= u < |s.pc| && s.pc[u].Receiving? {
      assert u != t ==> s'.pc[u].Receiving?;
    }
    if u :| 0 <= u < |s.pc| && Pending(s.pc[u]) {
      assert u != t ==> Pending(s'.pc[u]);
    }
  }

  /** A thread goes on, to the same kind of place. */
  lemma SameKindFlow(s: State, t: nat, p: Pc)
    requires Flow(s) && t < |s.pc| && Pending(p) == Pending(s.pc[t]) && (Pending(p) ==> p.i == s.pc[t].i)
    requires s.pc[t].Receiving? ==> p.Receiving?
    ensures Flow(Goes(s, t, p))
  {
    hide SomeReceiver, SomePending;
    OthersStay(s, Goes(s, t, p), t);
  }

  lemma BeginFlow(s: State, t: nat, v: Value)
    requires Flow(s) && t < |s.pc| && (s.pc[t].Idle? || s.pc[t].SendBegin?)
    ensures Flow(Begin(s, t, v))
  {
    hide SomeReceiver, SomePending;
    OthersStay(s, Begin(s, t, v), t);
  }

  lemma AcceptsFlow(s: State, t: nat, v: Value)
    requires Flow(s) && t < |s.pc| == |s.accepted|
    ensures Flow(Accepts(s, t, v))
  {
    var s' := Accepts(s, t, v);
    if u :| 0 <= u < |s.pc| && Pending(s.pc[u]) {
      assert Pending(s'.pc[u]);
    }
    if u :| 0 <= u < |s.pc| && s.pc[u].Receiving? {
      assert s'.pc[u].Receiving?;
    }
  }

  lemma EndFlow(s: State, t: nat, i: nat)
    requires Flow(s) && t < |s.pc| && s.pc[t].SendEnd? && s.pc[t].i == i
    ensures Flow(End(s, t, i))
  {
    hide SomeReceiver, SomePending;
    OthersStay(s, End(s, t, i), t);
  }

  lemma TookFlow(s: State, t: nat)
    requires Flow(s) && t < |s.pc| && (s.pc[t].Receiving? || s.pc[t].Idle?) && s.queue != []
    ensures Flow(Take(s, t))
  {
    hide SomeReceiver, SomePending;
    var s' := Goes(Dequeue(s).(recvReady := false), t, AfterReceive(s));
    OthersStay(s, s', t);
    assert s.queue == [s.queue[0]] + s.queue[1..];
  }

  lemma TakeFlow(s: State, t: nat)
    requires Flow(s) && t < |s.pc| && s.pc[t].Receiving?
    ensures Flow(Take(s, t))
  {
    if s.queue == [] {
      SameKindFlow(s, t, Receiving(true));
    } else {
      TookFlow(s, t);
    }
  }

  lemma RecvFlow(s: State, t: nat)
    requires Flow(s) && t < |s.pc| && s.pc[t].Idle?
    ensures Flow(Take(s.(recvReady := true), t))
  {
    hide SomeReceiver, SomePending;
    if s.queue == [] {
      OthersStay(s, Goes(s.(recvReady := true), t, Receiving(true)), t);
    } else {
      assert Take(s.(recvReady := true), t) == Take(s, t);
      TookFlow(s, t);
    }
  }

  lemma TrySendFlow(s: State, t: nat, v: Value)
    requires Flow(s) && t < |s.pc| == |s.accepted| && s.pc[t].Idle? && s.selectSend
    ensures Flow(DoTrySend(s, t, v))
  {
    hide SomeReceiver, SomePending;
    OthersStay(s, DoTrySend(s, t, v), t);
  }

  lemma TryTookFlow(s: State, t: nat)
    requires Flow(s) && t < |s.pc| && s.pc[t].Idle? && !s.selectSend && s.queue != []
    ensures Flow(DoTryRecv(s, t))
  {
    hide SomeReceiver, SomePending;
    var s' := Goes(Dequeue(s), t, AfterReceive(s));
    OthersStay(s, s', t);
    assert s.queue == [s.queue[0]] + s.queue[1..];
  }

  lemma TryRecvFlow(s: State, t: nat)
    requires Flow(s) && t < |s.pc| && s.pc[t].Idle? && !s.selectSend
    ensures Flow(DoTryRecv(s, t))
  {
    if s.queue == [] {
      hide SomeReceiver, SomePending;
      var s' := s.(tryRecvReady := true);
      assert s'.pc == s.pc[t := s.pc[t]];
      OthersStay(s, s', t);
    } else {
      TryTookFlow(s, t);
    }
  }

  lemma NotifyFlow(s: State, t: nat, a: Act, p: Pc)
    requires Flow(s) && t < |s.pc| && (a.Wake? ==> a.u < |s.pc| && a.u != t)
    requires (s.pc[t].Enqueued? && p == SendEnd(s.pc[t].i, false)) || (s.pc[t].Telling? && p == Idle)
    ensures Flow(Notify(s, t, a, p))
  {
    if a.Wake? {
      SameKindFlow(s, a.u, WakeUp(s.pc[a.u]));
      SameKindFlow(Goes(s, a.u, WakeUp(s.pc[a.u])), t, p);
    } else {
      SameKindFlow(s, t, p);
    }
  }

  // --------------------------------------------------------- no lost wake-up

  lemma OthersSleep(s: State, s': State, t: nat)
    requires t < |s.pc| == |s'.pc| && s'.pc == s.pc[t := s'.pc[t]]
    ensures forall cv :: SomeSleeper(s', cv) && !SleepsAt(s'.pc[t], cv) ==> SomeSleeper(s, cv)
    ensures SomeStarts(s) && !Starts(s.pc[t]) ==> SomeStarts(s')
    ensures Starts(s'.pc[t]) ==> SomeStarts(s')
    ensures SomeTellsEnd(s) && s.pc[t] != Telling(EndCv) ==> SomeTellsEnd(s')
    ensures s'.pc[t] == Telling(EndCv) ==> SomeTellsEnd(s')
    ensures Total(s'.pc, Looks) == Total(s.pc, Looks) - Looks(s.pc[t]) + Looks(s'.pc[t])
    ensures Total(s'.pc, Looks) >= 0
  {
    TotalUpdate(s.pc, t, s'.pc[t], Looks);
    TotalDominates(s'.pc, Looks);
    forall cv | SomeSleeper(s', cv) && !SleepsAt(s'.pc[t], cv) ensures SomeSleeper(s, cv) {
      var u :| 0 <= u < |s'.pc| && SleepsAt(s'.pc[u], cv);
      assert SleepsAt(s.pc[u], cv);
    }
    if u :| 0 <= u < |s.pc| && Starts(s.pc[u]) {
      assert u != t ==> Starts(s'.pc[u]);
    }
    if u :| 0 <= u < |s.pc| && s.pc[u] == Telling(EndCv) {
      assert u != t ==> s'.pc[u] == Telling(EndCv);
    }
  }

  ghost predicate Woken(s: State) {
    RecvOk(s) && BeginOk(s) && EndOk(s)
  }

  lemma BeginWoken(s: State, t: nat, v: Value)
    requires Flow(s) && Woken(s) && t < |s.pc| && (s.pc[t].Idle? || s.pc[t] == SendBegin(v, false))
    ensures Woken(Begin(s, t, v))
  {
    hide SomeSleeper, SomeStarts, SomeTellsEnd, Flow;
    OthersSleep(s, Begin(s, t, v), t);
  }

  lemma AcceptsWoken(s: State, t: nat, v: Value)
    requires Woken(s) && t < |s.pc| == |s.accepted| && s.pc[t].Idle?
    ensures Woken(Accepts(s, t, v))
  {
    hide SomeSleeper, SomeStarts, SomeTellsEnd;
    assert s.pc == s.pc[t := s.pc[t]];
    OthersSleep(s, Accepts(s, t, v), t);
  }

  lemma EndWoken(s: State, t: nat, i: nat)
    requires Flow(s) && Woken(s) && t < |s.pc| && s.pc[t] == SendEnd(i, false)
    ensures Woken(End(s, t, i))
  {
    hide SomeSleeper, SomeStarts, SomeTellsEnd, Flow;
    OthersSleep(s, End(s, t, i), t);
  }

  lemma OneLess(s: State)
    requires s.queue != []
    ensures |Dequeue(s).queue| == |s.queue| - 1
  {
  }

  /** Who sleeps at the end is the pending send, so that the receive tells it. */
  lemma EndSleeper(s: State)
    requires Flow(s) && SomeSleeper(s, EndCv)
    ensures !s.sendDone
  {
    var u :| 0 <= u < |s.pc| && SleepsAt(s.pc[u], EndCv);
    assert Pending(s.pc[u]);
  }

  /** A message taken, and somebody told. */
  lemma TookWoken(s: State, s': State, t: nat)
    requires Flow(s) && Woken(s) && t < |s.pc| && (s.pc[t].Idle? || s.pc[t] == Receiving(false)) && s.queue != []
    requires s'.pc == s.pc[t := AfterReceive(s)] && s'.queue == s.queue[1..] && s'.sendDone == s.sendDone && s'.n == s.n
    ensures Woken(s')
  {
    hide SomeSleeper, SomeStarts, SomeTellsEnd, Flow;
    if SomeSleeper(s, EndCv) {
      EndSleeper(s);
    }
    OthersSleep(s, s', t);
  }

  /** A receiver falls asleep. */
  lemma FallsWoken(s: State, s': State, t: nat)
    requires Woken(s) && t < |s.pc| && (s.pc[t].Idle? || s.pc[t] == Receiving(false)) && s.queue == s'.queue == []
    requires s'.pc == s.pc[t := Receiving(true)] && s'.sendDone == s.sendDone && s'.trySendDone == s.trySendDone
             && s'.n == s.n
    ensures Woken(s')
  {
    hide SomeSleeper, SomeStarts, SomeTellsEnd;
    OthersSleep(s, s', t);
  }

  lemma TakeWoken(s: State, t: nat, s': State)
    requires Flow(s) && Woken(s) && t < |s.pc| && (s.pc[t].Idle? || s.pc[t] == Receiving(false))
    requires s' == Take(s, t) || s' == Take(s.(recvReady := true), t)
    ensures Woken(s')
  {
    hide Flow, Woken;
    if s.queue == [] {
      FallsWoken(s, s', t);
    } else {
      TookWoken(s, s', t);
    }
  }

  lemma TrySendWoken(s: State, t: nat, v: Value)
    requires Woken(s) && t < |s.pc| == |s.accepted| && s.pc[t].Idle?
    ensures Woken(DoTrySend(s, t, v))
  {
    hide SomeSleeper, SomeStarts, SomeTellsEnd;
    OthersSleep(s, DoTrySend(s, t, v), t);
  }

  lemma TryRecvWoken(s: State, t: nat)
    requires Flow(s) && Woken(s) && t < |s.pc| && s.pc[t].Idle?
    ensures Woken(DoTryRecv(s, t))
  {
    hide SomeSleeper, SomeStarts, SomeTellsEnd, Flow;
    if s.queue == [] {
      assert s.pc == s.pc[t := s.pc[t]];
      OthersSleep(s, DoTryRecv(s, t), t);
    } else {
      TookWoken(s, DoTryRecv(s, t), t);
    }
  }

  /** Waking up, for whatever reason. */
  lemma WakeWoken(s: State, t: nat)
    requires Woken(s) && t < |s.pc| && Asleep(s.pc[t])
    ensures Woken(Goes(s, t, WakeUp(s.pc[t])))
  {
    hide SomeSleeper, SomeStarts, SomeTellsEnd;
    OthersSleep(s, Goes(s, t, WakeUp(s.pc[t])), t);
  }

  /** A notification for which there is nobody. */
  lemma VainWoken(s: State, t: nat, cv: Cv, p: Pc)
    requires Woken(s) && t < |s.pc| && !SomeSleeper(s, cv) && !Asleep(p)
    requires (s.pc[t].Enqueued? && cv == RecvCv) || s.pc[t] == Telling(cv)
    ensures Woken(Goes(s, t, p))
  {
    hide SomeSleeper, SomeStarts, SomeTellsEnd;
    OthersSleep(s, Goes(s, t, p), t);
  }

  lemma OnlyEndSleeper(s: State, u: nat)
    requires Flow(s) && u < |s.pc| && s.pc[u].SendEnd?
    ensures !SomeSleeper(Goes(s, u, WakeUp(s.pc[u])), EndCv)
  {
    forall x | 0 <= x < |s.pc| && x != u ensures !Pending(s.pc[x]) {
    }
  }

  /** A notification that reaches a sleeper. */
  lemma WakesOneWoken(s: State, t: nat, cv: Cv, u: nat, p: Pc)
    requires Flow(s) && Woken(s) && t < |s.pc| && u < |s.pc| && u != t && SleepsAt(s.pc[u], cv) && !Asleep(p)
    requires (s.pc[t].Enqueued? && cv == RecvCv) || s.pc[t] == Telling(cv)
    ensures Woken(Goes(Goes(s, u, WakeUp(s.pc[u])), t, p))
  {
    hide Flow, Woken;
    match cv {
      case BeginCv => WakesSender(s, t, u, p);
      case EndCv => WakesPending(s, t, u, p);
      case RecvCv => WakesReceiver(s, t, u, p);
    }
  }

  lemma WakesSender(s: State, t: nat, u: nat, p: Pc)
    requires Flow(s) && Woken(s) && t < |s.pc| && u < |s.pc| && u != t && SleepsAt(s.pc[u], BeginCv) && !Asleep(p)
    requires s.pc[t] == Telling(BeginCv)
    ensures Woken(Goes(Goes(s, u, WakeUp(s.pc[u])), t, p))
  {
    hide SomeSleeper, SomeStarts, SomeTellsEnd, Flow;
    var s1 := Goes(s, u, WakeUp(s.pc[u]));
    OthersSleep(s, s1, u);
    OthersSleep(s1, Goes(s1, t, p), t);
    OneStarts(Goes(s1, t, p), u);
  }

  lemma WakesPending(s: State, t: nat, u: nat, p: Pc)
    requires Flow(s) && Woken(s) && t < |s.pc| && u < |s.pc| && u != t && SleepsAt(s.pc[u], EndCv) && !Asleep(p)
    requires s.pc[t] == Telling(EndCv)
    ensures Woken(Goes(Goes(s, u, WakeUp(s.pc[u])), t, p))
  {
    OnlyEndSleeper(s, u);
    hide SomeSleeper, SomeStarts, SomeTellsEnd, Flow;
    var s1 := Goes(s, u, WakeUp(s.pc[u]));
    OthersSleep(s, s1, u);
    OthersSleep(s1, Goes(s1, t, p), t);
  }

  lemma WakesReceiver(s: State, t: nat, u: nat, p: Pc)
    requires Flow(s) && Woken(s) && t < |s.pc| && u < |s.pc| && u != t && SleepsAt(s.pc[u], RecvCv) && !Asleep(p)
    requires s.pc[t].Enqueued? || s.pc[t] == Telling(RecvCv)
    ensures Woken(Goes(Goes(s, u, WakeUp(s.pc[u])), t, p))
  {
    hide SomeSleeper, SomeStarts, SomeTellsEnd, Flow;
    var s1 := Goes(s, u, WakeUp(s.pc[u]));
    OthersSleep(s, s1, u);
    OthersSleep(s1, Goes(s1, t, p), t);
  }

  lemma OneStarts(s: State, u: nat)
    requires u < |s.pc| && Starts(s.pc[u])
    ensures SomeStarts(s)
  {
  }

  lemma NotifyWoken(s: State, t: nat, cv: Cv, a: Act, p: Pc)
    requires Flow(s) && Woken(s) && t < |s.pc| && CanNotify(s, cv, a) && !Asleep(p)
    requires (s.pc[t].Enqueued? && cv == RecvCv) || s.pc[t] == Telling(cv)
    ensures (a.Wake? ==> a.u < |s.pc| && a.u != t) && Woken(Notify(s, t, a, p))
  {
    hide Flow, Woken;
    if a.Wake? {
      WakesOneWoken(s, t, cv, a.u, p);
    } else {
      VainWoken(s, t, cv, p);
    }
  }

  lemma StepFlow(s: State, t: nat, a: Act, s': State)
    requires Flow(s) && Woken(s) && StepOf(s, t, a, s')
    ensures Flow(s')
  {
    hide Flow, Woken, Begin, End, Take, DoTrySend, DoTryRecv, SomeSleeper;
    match s.pc[t] {
      case Idle =>
        if a.Send? {
          AcceptsFlow(s, t, a.v);
          BeginFlow(Accepts(s, t, a.v), t, a.v);
        } else if a.TrySend? {
          TrySendFlow(s, t, a.v);
        } else if a.Recv? {
          RecvFlow(s, t);
        } else {
          TryRecvFlow(s, t);
        }
      case SendBegin(v, asleep) => if asleep { SameKindFlow(s, t, SendBegin(v, false)); } else { BeginFlow(s, t, v); }
      case Enqueued(i) => NotifyFlow(s, t, a, SendEnd(i, false));
      case SendEnd(i, asleep) => if asleep { SameKindFlow(s, t, SendEnd(i, false)); } else { EndFlow(s, t, i); }
      case Receiving(asleep) => if asleep { SameKindFlow(s, t, Receiving(false)); } else { TakeFlow(s, t); }
      case Telling(_) => NotifyFlow(s, t, a, Idle);
    }
  }

  lemma StepWoken(s: State, t: nat, a: Act, s': State)
    requires Flow(s) && Woken(s) && StepOf(s, t, a, s')
    ensures Woken(s')
  {
    hide Flow, Woken, Begin, End, Take, DoTrySend, DoTryRecv, CanNotify;
    match s.pc[t] {
      case Idle =>
        if a.Send? {
          AcceptsWoken(s, t, a.v);
          AcceptsFlow(s, t, a.v);
          BeginWoken(Accepts(s, t, a.v), t, a.v);
        } else if a.TrySend? {
          TrySendWoken(s, t, a.v);
        } else if a.Recv? {
          TakeWoken(s, t, s');
        } else {
          TryRecvWoken(s, t);
        }
      case SendBegin(v, asleep) => if asleep { WakeWoken(s, t); } else { BeginWoken(s, t, v); }
      case Enqueued(i) => NotifyWoken(s, t, RecvCv, a, SendEnd(i, false));
      case SendEnd(i, asleep) => if asleep { WakeWoken(s, t); } else { EndWoken(s, t, i); }
      case Receiving(asleep) => if asleep { WakeWoken(s, t); } else { TakeWoken(s, t, s'); }
      case Telling(cv) => NotifyWoken(s, t, cv, a, Idle);
    }
  }

  // ------------------------------------------------- every value gets sent

  lemma FromNext(sent: seq<Msg>, m: Msg, t: nat)
    ensures From(sent + [m], t) == From(sent, t) + if m.sender == t then [m.value] else []
  {
    assert (sent + [m])[..|sent|] == sent;
  }

  /** Moves that leave alone what is sent and accepted, and whose sends are waiting to begin. */
  lemma SentStays(s: State, s': State)
    requires AllSent(s) && SendsNothing(s, s')
    ensures AllSent(s')
  {
    hide From;
    forall t | 0 <= t < |s'.pc| ensures SentBy(s'.accepted, s'.sent, s'.pc, t) {
      assert SentBy(s.accepted, s.sent, s.pc, t);
    }
  }

  /** A send called, or resumed: `calls` are the accepted values with those of this call. */
  lemma BeginSent(s: State, t: nat, v: Value)
    requires t < |s.pc| == |s.accepted| && s.accepted[t] == From(s.sent, t) + [v]
    requires forall u :: 0 <= u < |s.pc| && u != t ==> SentBy(s.accepted, s.sent, s.pc, u)
    ensures AllSent(Begin(s, t, v))
  {
    hide From;
    var s' := Begin(s, t, v);
    forall u | 0 <= u < |s'.pc| ensures SentBy(s'.accepted, s'.sent, s'.pc, u) {
      FromNext(s.sent, Msg(t, v), u);
      assert u != t ==> SentBy(s.accepted, s.sent, s.pc, u);
    }
  }

  lemma SendSent(s: State, t: nat, v: Value)
    requires AllSent(s) && t < |s.pc| && s.pc[t].Idle?
    ensures AllSent(Begin(Accepts(s, t, v), t, v))
  {
    hide From, Begin;
    assert SentBy(s.accepted, s.sent, s.pc, t);
    var s1 := Accepts(s, t, v);
    forall u | 0 <= u < |s.pc| && u != t ensures SentBy(s1.accepted, s1.sent, s1.pc, u) {
      assert SentBy(s.accepted, s.sent, s.pc, u);
    }
    BeginSent(s1, t, v);
  }

  lemma ResumedSent(s: State, t: nat, v: Value)
    requires AllSent(s) && t < |s.pc| && s.pc[t] == SendBegin(v, false)
    ensures AllSent(Begin(s, t, v))
  {
    hide From, Begin;
    assert SentBy(s.accepted, s.sent, s.pc, t);
    BeginSent(s, t, v);
  }

  lemma TrySendSent(s: State, t: nat, v: Value)
    requires AllSent(s) && t < |s.pc| && s.pc[t].Idle?
    ensures AllSent(DoTrySend(s, t, v))
  {
    hide From;
    var s' := DoTrySend(s, t, v);
    forall u | 0 <= u < |s'.pc| ensures SentBy(s'.accepted, s'.sent, s'.pc, u) {
      assert SentBy(s.accepted, s.sent, s.pc, u);
      FromNext(s.sent, Msg(t, v), u);
    }
  }

  /** A step of neither kind: nothing is sent, and no call changes its value. */
  ghost predicate SendsNothing(s: State, s': State) {
    && s'.accepted == s.accepted && s'.sent == s.sent && |s'.pc| == |s.pc|
    && forall u :: 0 <= u < |s.pc| ==>
         && s'.pc[u].SendBegin? == s.pc[u].SendBegin?
         && (s.pc[u].SendBegin? ==> s'.pc[u].v == s.pc[u].v)
  }

  lemma GoesSends(s: State, t: nat, p: Pc)
    requires t < |s.pc| && p.SendBegin? == s.pc[t].SendBegin? && (p.SendBegin? ==> p.v == s.pc[t].v)
    ensures SendsNothing(s, Goes(s, t, p))
  {
  }

  lemma EndSends(s: State, t: nat, i: nat)
    requires t < |s.pc| && !s.pc[t].SendBegin?
    ensures SendsNothing(s, End(s, t, i))
  {
  }

  lemma TakeSends(s: State, t: nat)
    requires t < |s.pc| && !s.pc[t].SendBegin?
    ensures SendsNothing(s, Take(s, t))
  {
  }

  lemma ReadySends(s: State, s': State)
    requires SendsNothing(s.(recvReady := true), s')
    ensures SendsNothing(s, s')
  {
  }

  lemma TryRecvSends(s: State, t: nat)
    requires t < |s.pc| && !s.pc[t].SendBegin?
    ensures SendsNothing(s, DoTryRecv(s, t))
  {
  }

  lemma NotifySends(s: State, t: nat, a: Act, p: Pc)
    requires t < |s.pc| && (a.Wake? ==> a.u < |s.pc|) && !p.SendBegin? && !s.pc[t].SendBegin?
    ensures SendsNothing(s, Notify(s, t, a, p))
  {
  }

  /** The rest of a send, and the receiving side. */
  lemma OtherSteps(s: State, t: nat, a: Act, s': State)
    requires StepOf(s, t, a, s') && (s.pc[t].Idle? ==> a.Recv? || a.TryRecv?)
    requires s.pc[t].SendBegin? ==> s.pc[t].asleep
    ensures SendsNothing(s, s')
  {
    hide SomeSleeper, Begin, End, Take, DoTrySend, DoTryRecv, Notify, Goes, SendsNothing;
    match s.pc[t] {
      case Idle =>
        if a.Recv? {
          TakeSends(s.(recvReady := true), t);
          ReadySends(s, s');
        } else {
          TryRecvSends(s, t);
        }
      case SendBegin(v, _) => GoesSends(s, t, SendBegin(v, false));
      case Enqueued(i) => NotifySends(s, t, a, SendEnd(i, false));
      case SendEnd(i, asleep) => if asleep { GoesSends(s, t, SendEnd(i, false)); } else { EndSends(s, t, i); }
      case Receiving(asleep) => if asleep { GoesSends(s, t, Receiving(false)); } else { TakeSends(s, t); }
      case Telling(_) => NotifySends(s, t, a, Idle);
    }
  }

  lemma StepSent(s: State, t: nat, a: Act, s': State)
    requires AllSent(s) && StepOf(s, t, a, s')
    ensures AllSent(s')
  {
    assert t < |s.pc|;
    if s.pc[t].Idle? && a.Send? {
      SendSent(s, t, a.v);
    } else if s.pc[t].Idle? && a.TrySend? {
      TrySendSent(s, t, a.v);
    } else if s.pc[t].SendBegin? && !s.pc[t].asleep {
      ResumedSent(s, t, s.pc[t].v);
    } else {
      OtherSteps(s, t, a, s');
      SentStays(s, s');
    }
  }

  lemma StepInv(s: State, t: nat, a: Act, s': State)
    requires Inv(s) && StepOf(s, t, a, s')
    ensures Inv(s')
  {
    hide StepOf, AllSent;
    StepFlow(s, t, a, s');
    StepWoken(s, t, a, s');
    StepSent(s, t, a, s');
  }

  lemma {:induction false} RunInv(run: seq<State>, i: nat)
    requires Run(run) && i < |run|
    ensures Inv(run[i])
  {
    hide Inv, StepOf;
    if i == 0 {
      InitInv(run[0]);
    } else {
      RunInv(run, i - 1);
      assert Next(run[i - 1], run[i - 1 + 1]);
      var t: nat, a :| StepOf(run[i - 1], t, a, run[i]);
      StepInv(run[i - 1], t, a, run[i]);
    }
  }

  lemma ReachableInv(s: State)
    requires Reachable(s)
    ensures Inv(s)
  {
    hide Inv;
    var run :| Run(run) && run[|run| - 1] == s;
    RunInv(run, |run| - 1);
  }

  // ----------------------------------------------------------- main results

  /** Capacity, and the assertions of the receiving side: the queue holds at most n + 1 values, a full
      one has a send pending, and a blocking and a non-blocking send are never both pending. */
  lemma Capacity(s: State)
    requires Reachable(s)
    ensures |s.queue| <= s.n + 1
    ensures s.sendDone || s.trySendDone
    ensures Full(s) ==> !s.sendDone || !s.trySendDone
    ensures !(s.trySendReady && s.tryRecvReady)
  {
    ReachableInv(s);
  }

  /** Values are received in the order in which they were sent, none lost and none twice. */
  lemma Fifo(s: State)
    requires Reachable(s)
    ensures s.received <= s.sent && s.received + s.queue == s.sent
  {
    ReachableInv(s);
  }

  /** What a thread has called send with, or try_send with success, gets sent, in the order of its
      calls; only a call that is still waiting to begin has its value yet to send. */
  lemma CallsInOrder(s: State, t: nat)
    requires Reachable(s) && t < |s.pc|
    ensures |s.accepted| == |s.pc|
    ensures s.accepted[t] == From(s.sent, t) + if s.pc[t].SendBegin? then [s.pc[t].v] else []
  {
    ReachableInv(s);
    assert SentBy(s.accepted, s.sent, s.pc, t);
  }

  /** try_send succeeds exactly if no send is pending and there is room for the value, or else no room
      but one place for it to be handed over in and a receiver seen to wait; then the value is sent.
      Otherwise nothing is. */
  lemma TrySendExact(s: State, t: nat, v: Value, s': State)
    requires Reachable(s) && StepOf(s, t, TrySend(v), s')
    ensures (s'.pc[t] == Telling(RecvCv) && s'.sent == s.sent + [Msg(t, v)]) || (s'.pc[t] == Idle && s'.sent == s.sent)
    ensures s'.trySendReady
    ensures s'.pc[t] != Idle <==> !SomePending(s) && (|s.queue| < s.n || (|s.queue| == s.n && s.recvReady))
  {
    ReachableInv(s);
  }

  /** try_recv succeeds exactly if there is something to receive, and receives the oldest. */
  lemma TryRecvExact(s: State, t: nat, s': State)
    requires Reachable(s) && StepOf(s, t, TryRecv, s')
    ensures s'.pc[t] != Idle <==> s.queue != []
    ensures s'.received == s.received + if s.queue != [] then [s.queue[0]] else []
    ensures s'.tryRecvReady <==> s.queue == []
    ensures s.queue != [] ==> !s'.trySendReady && s'.trySendDone
  {
  }

  /** A thread comes out of recv only with the oldest value. */
  lemma RecvTakes(s: State, t: nat, a: Act, s': State)
    requires StepOf(s, t, a, s') && (s.pc[t].Receiving? || (s.pc[t].Idle? && a.Recv?)) && !s'.pc[t].Receiving?
    ensures s.queue != [] && s'.received == s.received + [s.queue[0]] && s'.queue == s.queue[1..]
    ensures !s'.recvReady && !s'.trySendReady && !s'.tryRecvReady && s'.trySendDone
  {
  }

  /** When a blocking send returns at most n values are outstanding.  With n = 0 its own value has been
      received; in any channel without selects at the sending end, its value is the one sent last. */
  lemma SendReturns(s: State, t: nat)
    requires Reachable(s) && t < |s.pc| && s.pc[t].SendEnd? && End(s, t, s.pc[t].i).pc[t].Telling?
    ensures |s.sent| - |s.received| <= s.n
    ensures s.pc[t].i < |s.sent| && s.sent[s.pc[t].i].sender == t
    ensures s.n == 0 ==> s.pc[t].i < |s.received| && s.received[s.pc[t].i] == s.sent[s.pc[t].i]
    ensures !s.selectSend ==> s.pc[t].i == |s.sent| - 1
  {
    ReachableInv(s);
  }

  /** Only one blocking send at a time is between its two waits. */
  lemma OnePendingSend(s: State, t: nat, u: nat)
    requires Reachable(s) && t < |s.pc| && u < |s.pc| && Pending(s.pc[t]) && Pending(s.pc[u])
    ensures t == u && !s.sendDone
  {
    ReachableInv(s);
  }

  /** If a thread sleeps although what it waits for has come about, another one is on its way to look
      for the same thing, or about to notify one: no wake-up is ever lost, spurious ones and late
      comers notwithstanding. */
  lemma NoLostWakeUp(s: State, t: nat) returns (u: nat)
    requires Reachable(s) && t < |s.pc| && Asleep(s.pc[t])
    requires s.pc[t].SendBegin? ==> CanBegin(s)
    requires s.pc[t].SendEnd? ==> !Full(s)
    requires s.pc[t].Receiving? ==> s.queue != []
    ensures u < |s.pc|
    ensures s.pc[t].SendBegin? ==> Starts(s.pc[u])
    ensures s.pc[t].SendEnd? ==> s.pc[u] == Telling(EndCv)
    ensures s.pc[t].Receiving? ==> Looks(s.pc[u]) == 1
  {
    ReachableInv(s);
    if s.pc[t].SendBegin? {
      assert SleepsAt(s.pc[t], BeginCv);
      u :| 0 <= u < |s.pc| && Starts(s.pc[u]);
    } else if s.pc[t].SendEnd? {
      assert SleepsAt(s.pc[t], EndCv);
      u :| 0 <= u < |s.pc| && s.pc[u] == Telling(EndCv);
    } else {
      assert SleepsAt(s.pc[t], RecvCv);
      u := TotalWitness(s.pc, Looks);
    }
  }

  /** A try_send that leaves itself pending has a receiver waiting to complete it, and one that will
      look. */
  lemma PendingTrySendHasReceiver(s: State) returns (r: nat, u: nat)
    requires Reachable(s) && !s.trySendDone
    ensures s.queue != [] && r < |s.pc| && s.pc[r].Receiving? && u < |s.pc| && Looks(s.pc[u]) == 1
  {
    ReachableInv(s);
    r :| 0 <= r < |s.pc| && s.pc[r].Receiving?;
    u := r;
    if Asleep(s.pc[r]) {
      u := NoLostWakeUp(s, r);
    }
  }

  /** No sender waits at the beginning in vain.  Unless the queue is full, there is a thread under way
      for just what keeps it waiting: the pending send or who notifies it; or a receiver for the
      value a try_send has left, or who notifies it; or a sender that will begin, or who notifies it. */
  lemma SenderNotStuck(s: State, t: nat) returns (u: nat)
    requires Reachable(s) && t < |s.pc| && s.pc[t].SendBegin? && !Full(s)
    ensures u < |s.pc| && s.pc[u] != Idle && !Asleep(s.pc[u])
    ensures !s.sendDone ==> Pending(s.pc[u]) || s.pc[u] == Telling(EndCv)
    ensures s.sendDone && !s.trySendDone ==> Looks(s.pc[u]) == 1
    ensures CanBegin(s) ==> Starts(s.pc[u])
  {
    ReachableInv(s);
    if !s.sendDone {
      u :| 0 <= u < |s.pc| && Pending(s.pc[u]);
      if Asleep(s.pc[u]) {
        u := NoLostWakeUp(s, u);
      }
    } else if !s.trySendDone {
      var r;
      r, u := PendingTrySendHasReceiver(s);
    } else if Asleep(s.pc[t]) {
      u := NoLostWakeUp(s, t);
    } else {
      u := t;
    }
  }

  /** No deadlock.  If every thread is idle or asleep, the receivers asleep have nothing to receive, and
      the senders asleep wait for room in a full queue, the one that filled it among them: a send and
      a receive never wait for each other. */
  lemma Quiescent(s: State)
    requires Reachable(s) && forall t :: 0 <= t < |s.pc| ==> s.pc[t] == Idle || Asleep(s.pc[t])
    ensures SomeSleeper(s, RecvCv) ==> s.queue == []
    ensures SomeSleeper(s, EndCv) ==> Full(s)
    ensures SomeSleeper(s, BeginCv) ==> Full(s) && SomeSleeper(s, EndCv)
    ensures !(SomeSleeper(s, RecvCv) && (SomeSleeper(s, BeginCv) || SomeSleeper(s, EndCv)))
  {
    ReachableInv(s);
    TotalZero(s.pc, Looks);
    if SomeSleeper(s, BeginCv) && s.sendDone {
      if !s.trySendDone {
        var r, u := PendingTrySendHasReceiver(s);
      }
    }
    if !s.sendDone {
      var u :| 0 <= u < |s.pc| && Pending(s.pc[u]);
      assert SleepsAt(s.pc[u], EndCv);
    }
  }

  // -------------------------------- the assertion on the sender of a message

  /** recv and try_recv assert that a full queue does not begin with their own thread's message. */
  predicate SenderAsserted(s: State, t: nat) {
    Full(s) && s.queue != [] ==> s.queue[0].sender != t
  }

  /** Thread t is where the assertion is evaluated next. */
  predicate TakesNext(s: State, t: nat) {
    && t < |s.pc| && s.queue != []
    && (s.pc[t].Idle? || s.pc[t] == Receiving(false))
  }

  ghost predicate AssertionHolds(n: nat, selectSend: bool) {
    forall s: State, t: nat :: Reachable(s) && s.n == n && s.selectSend == selectSend && TakesNext(s, t) ==>
      SenderAsserted(s, t)
  }

  /** The assertion holds in every run exactly when the channel is synchronous and selects are not at
      its sending end. */
  lemma AssertionExact(n: nat, selectSend: bool)
    ensures AssertionHolds(n, selectSend) <==> n == 0 && !selectSend
  {
    if n == 0 && !selectSend {
      forall s: State, t: nat | Reachable(s) && s.n == n && s.selectSend == selectSend && TakesNext(s, t)
        ensures SenderAsserted(s, t)
      {
        SynchronousAsserted(s, t);
      }
    } else if n > 0 {
      var s := OwnMessageFirst(n, selectSend);
      assert TakesNext(s, 0) && !SenderAsserted(s, 0);
    } else {
      var s := OwnTrySend();
      assert TakesNext(s, 0) && !SenderAsserted(s, 0);
    }
  }

  lemma SynchronousAsserted(s: State, t: nat)
    requires Reachable(s) && s.n == 0 && !s.selectSend && TakesNext(s, t)
    ensures SenderAsserted(s, t)
  {
    ReachableInv(s);
    if Full(s) {
      var u :| 0 <= u < |s.pc| && Pending(s.pc[u]);
      assert s.sent[|s.sent| - 1] == s.queue[0];
    }
  }

  lemma Reached(s: State, t: nat, a: Act) returns (s': State)
    requires Reachable(s) && Enabled(s, t, a)
    ensures s' == Access(s, t, a) && Reachable(s')
  {
    hide Init, Access, Enabled;
    s' := Access(s, t, a);
    var run :| Run(run) && run[|run| - 1] == s;
    var longer := run + [s'];
    assert StepOf(s, t, a, s');
    forall i | 0 <= i < |longer| - 1 ensures Next(longer[i], longer[i + 1]) {
      if i + 1 < |run| {
        assert longer[i] == run[i] && longer[i + 1] == run[i + 1];
      } else {
        assert longer[i] == s && longer[i + 1] == s';
      }
    }
    assert longer[0] == run[0];
    assert Run(longer) && longer[|longer| - 1] == s';
  }

  /** Three idle threads, and nothing sent. */
  lemma Beginning(n: nat, selectSend: bool) returns (s: State)
    ensures Reachable(s) && s.n == n && s.selectSend == selectSend && s.pc == [Idle, Idle, Idle]
    ensures s.queue == s.sent == s.received == [] && s.sendDone && s.trySendDone && !s.recvReady
    ensures |s.accepted| == 3
  {
    s := State(n, selectSend, [Idle, Idle, Idle], [], true, true, false, false, false, [], [], [[], [], []]);
    var run := [s];
    assert Run(run) && run[|run| - 1] == s;
  }

  /** Thread 0 sends k values, none of which is received. */
  lemma {:induction false} Sends(n: nat, selectSend: bool, k: nat) returns (s: State)
    requires k <= n
    ensures Reachable(s) && s.n == n && s.selectSend == selectSend && s.pc == [Idle, Idle, Idle] && s.sendDone
            && s.trySendDone
    ensures |s.accepted| == 3 && |s.queue| == k && forall i :: 0 <= i < k ==> s.queue[i].sender == 0
  {
    hide Reachable;
    if k == 0 {
      s := Beginning(n, selectSend);
    } else {
      var s0 := Sends(n, selectSend, k - 1);
      var s1 := Reached(s0, 0, Send(7));
      assert s1.pc == [Enqueued(|s0.sent|), Idle, Idle];
      var s2 := Reached(s1, 0, Go);
      assert s2.pc == [SendEnd(|s0.sent|, false), Idle, Idle];
      var s3 := Reached(s2, 0, Go);
      assert s3.pc == [Telling(BeginCv), Idle, Idle];
      s := Reached(s3, 0, Go);
      assert s.pc == [Idle, Idle, Idle];
    }
  }

  /** With room for one value at least: thread 0 fills the queue, thread 1 sends one more and waits, and
      thread 0 is about to receive its own first value. */
  lemma OwnMessageFirst(n: nat, selectSend: bool) returns (s: State)
    requires n > 0
    ensures Reachable(s) && s.n == n && s.selectSend == selectSend && TakesNext(s, 0) && !SenderAsserted(s, 0)
  {
    hide Reachable;
    var s0 := Sends(n, selectSend, n);
    s := Reached(s0, 1, Send(8));
    assert s.pc[0] == Idle && s.queue[0] == s0.queue[0];
  }

  /** With selects at the sending end: thread 0 sends for thread 1, which waits, and then receives
      before it. */
  lemma OwnTrySend() returns (s: State)
    ensures Reachable(s) && s.n == 0 && s.selectSend && TakesNext(s, 0) && !SenderAsserted(s, 0)
  {
    hide Reachable;
    var s0 := Beginning(0, true);
    var s1 := Reached(s0, 1, Recv);
    assert s1.pc == [Idle, Receiving(true), Idle];
    var s2 := Reached(s1, 0, TrySend(7));
    assert s2.queue == [Msg(0, 7)] && s2.pc == [Telling(RecvCv), Receiving(true), Idle];
    assert SleepsAt(s2.pc[1], RecvCv);
    s := Reached(s2, 0, Wake(1));
    assert s.pc == [Idle, Receiving(false), Idle];
  }

  // ------------------------------------- a receiver that try_send does not see

  /** A waiting receiver is meant to give try_send a chance: it does as long as no receive has been
      completed since it began to wait. */
  ghost predicate ReceiverSeen(s: State) {
    SomeReceiver(s) ==> s.recvReady
  }

  /** Thread t's step completes a blocking receive. */
  predicate Receives(s: State, t: nat, a: Act) {
    t < |s.pc| && s.queue != [] && (s.pc[t] == Receiving(false) || (s.pc[t].Idle? && a.Recv?))
  }

  lemma SeenUntilReceive(s: State, t: nat, a: Act, s': State)
    requires Reachable(s) && ReceiverSeen(s) && StepOf(s, t, a, s')
    ensures ReceiverSeen(s') <==> !(Receives(s, t, a) && exists u :: 0 <= u < |s.pc| && u != t && s.pc[u].Receiving?)
  {
    assert t < |s.pc|;
    hide Reachable, StepOf;
    if Receives(s, t, a) {
      AfterReceiving(s, t, a, s');
      if u :| 0 <= u < |s.pc| && u != t && s.pc[u].Receiving? {
        assert s'.pc[u].Receiving?;
      }
      if u :| 0 <= u < |s'.pc| && s'.pc[u].Receiving? {
        assert s.pc[u].Receiving?;
      }
    } else if s.pc[t].Idle? {
      StillSeen(s, t, a, s');
    } else {
      StillSeenAwake(s, t, a, s');
    }
  }

  lemma AfterReceiving(s: State, t: nat, a: Act, s': State)
    requires StepOf(s, t, a, s') && Receives(s, t, a)
    ensures s'.pc == s.pc[t := AfterReceive(s)] && !s'.recvReady
  {
  }

  lemma StillSeen(s: State, t: nat, a: Act, s': State)
    requires StepOf(s, t, a, s') && !Receives(s, t, a) && ReceiverSeen(s) && s.pc[t].Idle?
    ensures ReceiverSeen(s')
  {
    hide SomeSleeper;
    if u :| 0 <= u < |s'.pc| && s'.pc[u].Receiving? {
      assert u != t ==> s.pc[u].Receiving?;
    }
  }

  /** Nobody has begun to receive, nor made the others unseen. */
  ghost predicate NoNewReceiver(s: State, s': State) {
    && s'.recvReady == s.recvReady && |s'.pc| == |s.pc|
    && forall u :: 0 <= u < |s.pc| && s'.pc[u].Receiving? ==> s.pc[u].Receiving?
  }

  lemma StillSeenAwake(s: State, t: nat, a: Act, s': State)
    requires StepOf(s, t, a, s') && !Receives(s, t, a) && ReceiverSeen(s) && !s.pc[t].Idle?
    ensures ReceiverSeen(s')
  {
    NothingReceived(s, t, a, s');
    hide StepOf, Receives;
    if u :| 0 <= u < |s'.pc| && s'.pc[u].Receiving? {
      assert s.pc[u].Receiving?;
    }
  }

  lemma NothingReceived(s: State, t: nat, a: Act, s': State)
    requires StepOf(s, t, a, s') && !Receives(s, t, a) && !s.pc[t].Idle?
    ensures NoNewReceiver(s, s')
  {
    hide SomeSleeper, Begin, End, Notify, Goes, NoNewReceiver;
    match s.pc[t] {
      case SendBegin(v, asleep) => if asleep { MoveKinds(s, t, SendBegin(v, false)); } else { BeginKinds(s, t, v); }
      case SendEnd(i, asleep) => if asleep { MoveKinds(s, t, SendEnd(i, false)); } else { EndKinds(s, t, i); }
      case Receiving(asleep) => MoveKinds(s, t, Receiving(!asleep));
      case Enqueued(i) => NotifyKinds(s, t, a, SendEnd(i, false));
      case Telling(_) => NotifyKinds(s, t, a, Idle);
    }
  }

  lemma MoveKinds(s: State, t: nat, p: Pc)
    requires t < |s.pc| && (p.Receiving? ==> s.pc[t].Receiving?)
    ensures NoNewReceiver(s, Goes(s, t, p))
  {
  }

  lemma NotifyKinds(s: State, t: nat, a: Act, p: Pc)
    requires t < |s.pc| && (a.Wake? ==> a.u < |s.pc|) && !p.Receiving?
    ensures NoNewReceiver(s, Notify(s, t, a, p))
  {
  }

  lemma BeginKinds(s: State, t: nat, v: Value)
    requires t < |s.pc|
    ensures NoNewReceiver(s, Begin(s, t, v))
  {
  }

  lemma EndKinds(s: State, t: nat, i: nat)
    requires t < |s.pc|
    ensures NoNewReceiver(s, End(s, t, i))
  {
  }

  lemma TwoReceive() returns (s: State)
    ensures Reachable(s) && s.n == 0 && s.selectSend && s.pc == [Idle, Receiving(true), Receiving(true)]
    ensures s.queue == [] && s.sendDone && s.trySendDone && s.recvReady && |s.accepted| == 3
  {
    hide Reachable;
    var s0 := Beginning(0, true);
    var s1 := Reached(s0, 1, Recv);
    assert s1.pc == [Idle, Receiving(true), Idle];
    s := Reached(s1, 2, Recv);
    assert s.pc == [Idle, Receiving(true), Receiving(true)];
  }

  /** Two receivers wait on an empty synchronous channel, one is served by a try_send: a receiver still
      waits on an empty queue, and every further try_send gives up. */
  lemma ReceiverUnseen()
    ensures exists s ::
              && Reachable(s) && s.n == 0 && |s.pc| == 3 && s.pc[2].Receiving?
              && s.queue == [] && !s.recvReady && TrySendFails(s)
  {
    hide Reachable;
    var s2 := TwoReceive();
    var s3 := Reached(s2, 0, TrySend(7));
    assert s3.queue == [Msg(0, 7)] && s3.pc == [Telling(RecvCv), Receiving(true), Receiving(true)];
    assert SleepsAt(s3.pc[1], RecvCv);
    var s4 := Reached(s3, 0, Wake(1));
    assert s4.pc == [Idle, Receiving(false), Receiving(true)];
    var s5 := Reached(s4, 1, Go);
    assert s5.pc[2] == Receiving(true) && s5.queue == [];
  }
}
