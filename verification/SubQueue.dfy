/** A sub-queue put together: the tickets decide which indices a dequeue gets, and the producer's blocks
    are where it finds them.  Nothing is taken for granted about a claim here: advancing headIndex is
    the step of the ticket protocol, and that only published elements are claimed is proved. */
module SubQueue {
  import TicketQueue
  import BlockIndex
  import ImplicitIndex

  /** The two kinds of producer. */
  datatype Producer =
    | Explicit(e: BlockIndex.State)
    | Implicit(i: ImplicitIndex.State)

  datatype State = State(q: TicketQueue.State, p: Producer)

  function Head(p: Producer): nat {
    if p.Explicit? then p.e.head else p.i.head
  }

  function Tail(p: Producer): nat {
    if p.Explicit? then p.e.tail else p.i.tail
  }

  function Consumers(p: Producer): nat {
    if p.Explicit? then |p.e.consumers| else |p.i.consumers|
  }

  function Claims(p: Producer): seq<nat> {
    if p.Explicit? then p.e.claims else p.i.claims
  }

  function Values(p: Producer): seq<int> {
    if p.Explicit? then p.e.values else p.i.values
  }

  function Accepted(p: Producer): seq<int> {
    if p.Explicit? then p.e.accepted else p.i.accepted
  }

  predicate AtRestOf(p: Producer) {
    if p.Explicit? then p.e.producer == BlockIndex.Rest else p.i.producer == ImplicitIndex.Rest
  }

  function Got(p: Producer): map<nat, int> {
    if p.Explicit? then p.e.got else p.i.got
  }

  predicate IsAway(p: Producer, t: nat)
    requires t < Consumers(p)
  {
    if p.Explicit? then p.e.consumers[t] == BlockIndex.Away else p.i.consumers[t] == ImplicitIndex.Away
  }

  ghost predicate InitOf(p: Producer) {
    if p.Explicit? then BlockIndex.Init(p.e) else ImplicitIndex.Init(p.i)
  }

  ghost predicate FitsOf(p: Producer) {
    if p.Explicit? then BlockIndex.Fits(p.e) else ImplicitIndex.Fits(p.i)
  }

  ghost predicate ReachableOf(p: Producer) {
    if p.Explicit? then BlockIndex.Reachable(p.e) else ImplicitIndex.Reachable(p.i)
  }

  ghost predicate NextOf(p: Producer, p': Producer) {
    && p'.Explicit? == p.Explicit?
    && if p.Explicit? then BlockIndex.Next(p.e, p'.e) else ImplicitIndex.Next(p.i, p'.i)
  }

  // ------------------------------------------------------------------ steps

  ghost predicate Init(s: State) {
    TicketQueue.Init(s.q) && InitOf(s.p) && |s.q.pc| == Consumers(s.p)
  }

  /** The producer's own step; publishing its tail is publishing that of the tickets. */
  ghost predicate Produces(s: State, s': State) {
    && s'.q == s.q.(tail := Tail(s'.p)) && s'.p.Explicit? == s.p.Explicit?
    && if s.p.Explicit?
       then BlockIndex.Sane(s.p.e) && BlockIndex.ProducerStep(s.p.e, s'.p.e)
       else ImplicitIndex.Sane(s.p.i) && ImplicitIndex.ProducerStep(s.p.i, s'.p.i)
  }

  /** A dequeue begins, by a thread with no other under way. */
  ghost predicate Begins(s: State, t: nat, max: nat, s': State) {
    TicketQueue.Begins(s.q, t, max, s'.q) && t < Consumers(s.p) && IsAway(s.p, t) && s'.p == s.p
  }

  /** A step of the ticket protocol, up to the fetch_add of headIndex. */
  ghost predicate Tickets(s: State, t: nat, s': State) {
    t < |s.q.pc| && !s.q.pc[t].Claim? && TicketQueue.Moves(s.q, t, s'.q) && s'.p == s.p
  }

  /** That fetch_add: thread t goes on with the indices it got, whatever they are. */
  function Claimed(p: Producer, t: nat, n: nat): Producer
    requires t < Consumers(p)
  {
    match p
    case Explicit(e) =>
      Explicit(BlockIndex.Goes(e, t, BlockIndex.LoadHeader(e.head, e.head + n)).(
        head := e.head + n, claims := e.claims + BlockIndex.Repeat(n, t)))
    case Implicit(i) =>
      Implicit(ImplicitIndex.Goes(i, t, ImplicitIndex.LoadHeader(i.head, i.head + n)).(
        head := i.head + n, claims := i.claims + ImplicitIndex.Repeat(n, t)))
  }

  ghost predicate Claiming(s: State, t: nat, s': State) {
    && t < |s.q.pc| && s.q.pc[t].Claim? && TicketQueue.Moves(s.q, t, s'.q) && t < Consumers(s.p)
    && s'.p == Claimed(s.p, t, s.q.tickets[s.q.pc[t].k].actual)
  }

  /** A step of a dequeue that has its indices. */
  ghost predicate Consumes(s: State, t: nat, s': State) {
    && t < Consumers(s.p) && !IsAway(s.p, t) && s'.q == s.q && s'.p.Explicit? == s.p.Explicit?
    && if s.p.Explicit?
       then BlockIndex.Sane(s.p.e) && BlockIndex.ConsumerStep(s.p.e, t, s'.p.e)
       else ImplicitIndex.Sane(s.p.i) && ImplicitIndex.ConsumerStep(s.p.i, t, s'.p.i)
  }

  ghost predicate Next(s: State, s': State) {
    || Produces(s, s')
    || (exists t: nat, max: nat :: Begins(s, t, max, s'))
    || (exists t: nat :: Tickets(s, t, s') || Claiming(s, t, s') || Consumes(s, t, s'))
  }

  ghost predicate Fits(s: State) {
    TicketQueue.Fits(s.q) && FitsOf(s.p)
  }

  ghost predicate Run(run: seq<State>) {
    && |run| > 0 && Init(run[0])
    && (forall i :: 0 <= i < |run| ==> Fits(run[i]))
    && (forall i :: 0 <= i < |run| - 1 ==> Next(run[i], run[i + 1]))
  }

  ghost predicate Reachable(s: State) {
    exists run: seq<State> :: Run(run) && run[|run| - 1] == s
  }

  // -------------------------------------------------------------- invariant

  /** Grant g, of one of n threads, is a claim of that thread's. */
  ghost predicate GrantOk(claims: seq<nat>, g: TicketQueue.Grant, n: nat) {
    g.t < n && g.first + g.count <= |claims| && forall i :: g.first <= i < g.first + g.count ==> claims[i] == g.t
  }

  /** Both parts are in states they reach by themselves, and agree on what they share. */
  ghost predicate Agrees(s: State) {
    && s.q.head == Head(s.p) == |Claims(s.p)| && s.q.tail == Tail(s.p) && |s.q.pc| == Consumers(s.p)
    && (forall t :: 0 <= t < |s.q.pc| && !s.q.pc[t].Idle? ==> IsAway(s.p, t))
    && (forall j :: 0 <= j < |s.q.grants| ==> GrantOk(Claims(s.p), s.q.grants[j], Consumers(s.p)))
  }

  ghost predicate Inv(s: State) {
    TicketQueue.Reachable(s.q) && ReachableOf(s.p) && Agrees(s)
  }

  lemma TicketsExtend(q: TicketQueue.State, q': TicketQueue.State)
    requires TicketQueue.Reachable(q) && TicketQueue.Next(q, q') && TicketQueue.Fits(q')
    ensures TicketQueue.Reachable(q')
  {
    hide TicketQueue.Next, TicketQueue.Fits, TicketQueue.Init;
    var run: seq<TicketQueue.State> :| TicketQueue.Run(run) && run[|run| - 1] == q;
    assert TicketQueue.Run(run + [q']);
  }

  lemma BlocksExtend(p: Producer, p': Producer)
    requires ReachableOf(p) && NextOf(p, p') && FitsOf(p')
    ensures ReachableOf(p')
  {
    hide BlockIndex.Next, BlockIndex.Fits, BlockIndex.Init, ImplicitIndex.Next, ImplicitIndex.Fits, ImplicitIndex.Init;
    if p.Explicit? {
      var run: seq<BlockIndex.State> :| BlockIndex.Run(run) && run[|run| - 1] == p.e;
      assert BlockIndex.Run(run + [p'.e]);
    } else {
      var run: seq<ImplicitIndex.State> :| ImplicitIndex.Run(run) && run[|run| - 1] == p.i;
      assert ImplicitIndex.Run(run + [p'.i]);
    }
  }

  lemma InitInv(s: State)
    requires Init(s) && Fits(s)
    ensures Inv(s)
  {
    assert TicketQueue.Run([s.q]);
    if s.p.Explicit? {
      assert BlockIndex.Run([s.p.e]);
    } else {
      assert ImplicitIndex.Run([s.p.i]);
    }
  }

  /** What a producer's step leaves alone. */
  lemma ExplicitProduces(e: BlockIndex.State, e': BlockIndex.State)
    requires BlockIndex.Sane(e) && BlockIndex.ProducerStep(e, e')
    ensures e'.head == e.head && e'.claims == e.claims && e'.consumers == e.consumers && e'.tail >= e.tail
  {
    hide BlockIndex.AllTrue, BlockIndex.Doubled, BlockIndex.Repeat, BlockIndex.EntryAt, BlockIndex.SetEntry;
  }

  lemma ImplicitProduces(i: ImplicitIndex.State, i': ImplicitIndex.State)
    requires ImplicitIndex.Sane(i) && ImplicitIndex.ProducerStep(i, i')
    ensures i'.head == i.head && i'.claims == i.claims && i'.consumers == i.consumers && i'.tail >= i.tail
  {
    hide ImplicitIndex.Doubled, ImplicitIndex.Repeat, ImplicitIndex.Linked, ImplicitIndex.Stops;
    if i.producer.StoreValue? {
      var job, need := i.producer.job, i.producer.need;
      var block: nat, after: int :| ImplicitIndex.Publishes(i, job, need, block, after, i');
    }
  }

  lemma ExplicitConsumes(e: BlockIndex.State, t: nat, e': BlockIndex.State)
    requires BlockIndex.Sane(e) && t < |e.consumers| && e.consumers[t] != BlockIndex.Away
             && BlockIndex.ConsumerStep(e, t, e')
    ensures e'.head == e.head && e'.claims == e.claims && e'.tail == e.tail
            && e'.consumers == e.consumers[t := e'.consumers[t]]
  {
    hide BlockIndex.AllTrue, BlockIndex.EntryAt;
  }

  lemma ImplicitConsumes(i: ImplicitIndex.State, t: nat, i': ImplicitIndex.State)
    requires i.b > 0 && t < |i.consumers| && i.consumers[t] != ImplicitIndex.Away
             && ImplicitIndex.ConsumerStep(i, t, i')
    ensures i'.head == i.head && i'.claims == i.claims && i'.tail == i.tail
            && i'.consumers == i.consumers[t := i'.consumers[t]]
  {
    hide ImplicitIndex.Range, ImplicitIndex.Onward;
  }

  lemma ProducesInv(s: State, s': State)
    requires Inv(s) && Produces(s, s') && Fits(s')
    ensures Inv(s')
  {
    hide BlockIndex.ProducerStep, ImplicitIndex.ProducerStep, BlockIndex.Sane, ImplicitIndex.Sane,
      TicketQueue.Reachable, ReachableOf, TicketQueue.Fits, FitsOf, GrantOk;
    if s.p.Explicit? {
      ExplicitProduces(s.p.e, s'.p.e);
    } else {
      ImplicitProduces(s.p.i, s'.p.i);
    }
    assert TicketQueue.Publishes(s.q, Tail(s'.p) - Tail(s.p), s'.q);
    TicketsExtend(s.q, s'.q);
    BlocksExtend(s.p, s'.p);
  }

  lemma ConsumesInv(s: State, t: nat, s': State)
    requires Inv(s) && Consumes(s, t, s') && Fits(s')
    ensures Inv(s')
  {
    hide BlockIndex.ConsumerStep, ImplicitIndex.ConsumerStep, BlockIndex.ProducerStep, ImplicitIndex.ProducerStep,
      TicketQueue.Reachable, ReachableOf, TicketQueue.Fits, FitsOf, GrantOk;
    if s.p.Explicit? {
      ExplicitConsumes(s.p.e, t, s'.p.e);
    } else {
      ImplicitConsumes(s.p.i, t, s'.p.i);
    }
    BlocksExtend(s.p, s'.p);
  }

  /** A step of the ticket protocol other than the claim shows nothing. */
  lemma TicketStep(q: TicketQueue.State, t: nat, q': TicketQueue.State)
    requires t < |q.pc| && !q.pc[t].Claim? && TicketQueue.Moves(q, t, q')
    ensures q'.head == q.head && q'.tail == q.tail && q'.grants == q.grants && q'.pc == q.pc[t := q'.pc[t]]
  {
    hide TicketQueue.Desired, TicketQueue.Granted;
  }

  lemma TicketsInv(s: State, t: nat, s': State)
    requires Inv(s) && Tickets(s, t, s') && Fits(s')
    ensures Inv(s')
  {
    hide TicketQueue.Reachable, ReachableOf, TicketQueue.Fits, FitsOf, GrantOk;
    TicketStep(s.q, t, s'.q);
    assert !s.q.pc[t].Idle? by { MovesBusy(s.q, t, s'.q); }
    hide TicketQueue.Moves;
    TicketsExtend(s.q, s'.q);
  }

  lemma MovesBusy(q: TicketQueue.State, t: nat, q': TicketQueue.State)
    requires TicketQueue.Moves(q, t, q')
    ensures t < |q.pc| && !q.pc[t].Idle?
  {
  }

  lemma BeginsInv(s: State, t: nat, max: nat, s': State)
    requires Inv(s) && Begins(s, t, max, s') && Fits(s')
    ensures Inv(s')
  {
    hide TicketQueue.Reachable, ReachableOf, TicketQueue.Fits, FitsOf, GrantOk;
    TicketsExtend(s.q, s'.q);
  }

  lemma ExplicitSane(e: BlockIndex.State)
    requires BlockIndex.Reachable(e)
    ensures BlockIndex.Sane(e)
  {
    hide BlockIndex.Reachable;
    BlockIndex.ReachableInv(e);
  }

  lemma ImplicitSane(i: ImplicitIndex.State)
    requires ImplicitIndex.Reachable(i)
    ensures ImplicitIndex.Sane(i)
  {
    hide ImplicitIndex.Reachable;
    ImplicitIndex.ReachableInv(i);
  }

  lemma ExplicitClaims(e: BlockIndex.State, t: nat, n: nat)
    requires BlockIndex.Reachable(e) && t < |e.consumers| && e.consumers[t] == BlockIndex.Away
    requires n > 0 && e.head + n <= e.tail
    ensures BlockIndex.Next(e, Claimed(Explicit(e), t, n).e)
  {
    hide BlockIndex.Reachable, BlockIndex.Next, BlockIndex.Sane;
    ExplicitSane(e);
    assert BlockIndex.Claims(e, t, n, Claimed(Explicit(e), t, n).e);
    ExplicitNext(e, t, n, Claimed(Explicit(e), t, n).e);
  }

  lemma ExplicitNext(e: BlockIndex.State, t: nat, n: nat, e': BlockIndex.State)
    requires BlockIndex.Sane(e) && t < |e.consumers| && e.consumers[t] == BlockIndex.Away
    requires BlockIndex.Claims(e, t, n, e')
    ensures BlockIndex.Next(e, e')
  {
    hide BlockIndex.Claims, BlockIndex.ProducerStep;
    assert BlockIndex.ConsumerStep(e, t, e');
    hide BlockIndex.ConsumerStep;
  }

  lemma ImplicitClaims(i: ImplicitIndex.State, t: nat, n: nat)
    requires ImplicitIndex.Reachable(i) && t < |i.consumers| && i.consumers[t] == ImplicitIndex.Away
    requires n > 0 && i.head + n <= i.tail
    ensures ImplicitIndex.Next(i, Claimed(Implicit(i), t, n).i)
  {
    hide ImplicitIndex.Reachable, ImplicitIndex.Next, ImplicitIndex.Sane;
    ImplicitSane(i);
    assert ImplicitIndex.Claims(i, t, n, Claimed(Implicit(i), t, n).i);
    ImplicitNext(i, t, n, Claimed(Implicit(i), t, n).i);
  }

  lemma ImplicitNext(i: ImplicitIndex.State, t: nat, n: nat, i': ImplicitIndex.State)
    requires ImplicitIndex.Sane(i) && t < |i.consumers| && i.consumers[t] == ImplicitIndex.Away
    requires ImplicitIndex.Claims(i, t, n, i')
    ensures ImplicitIndex.Next(i, i')
  {
    hide ImplicitIndex.Claims, ImplicitIndex.ProducerStep;
    assert ImplicitIndex.ConsumerStep(i, t, i');
    hide ImplicitIndex.ConsumerStep;
  }

  /** What the fetch_add of headIndex does to the tickets' side. */
  lemma ClaimStep(q: TicketQueue.State, t: nat, q': TicketQueue.State)
    requires t < |q.pc| && q.pc[t].Claim? && TicketQueue.Moves(q, t, q')
    ensures q.pc[t].k < |q.tickets|
    ensures var n := q.tickets[q.pc[t].k].actual;
            && q'.head == q.head + n && q'.tail == q.tail && q'.pc == q.pc[t := TicketQueue.Idle]
            && q'.grants == q.grants + [TicketQueue.Grant(t, q.head, n)]
  {
  }

  lemma ClaimAllowed(s: State, t: nat, s': State)
    requires Inv(s) && Claiming(s, t, s')
    ensures s.q.pc[t].k < |s.q.tickets|
    ensures var n := s.q.tickets[s.q.pc[t].k].actual;
            && n > 0 && Head(s.p) + n <= Tail(s.p) && IsAway(s.p, t) && NextOf(s.p, s'.p)
  {
    ClaimStep(s.q, t, s'.q);
    hide TicketQueue.Reachable, TicketQueue.Moves, BlockIndex.Next, ImplicitIndex.Next, BlockIndex.Reachable,
      ImplicitIndex.Reachable, GrantOk;
    TicketQueue.ClaimIsCovered(s.q, t);
    var n := s.q.tickets[s.q.pc[t].k].actual;
    if s.p.Explicit? {
      ExplicitClaims(s.p.e, t, n);
    } else {
      ImplicitClaims(s.p.i, t, n);
    }
  }

  lemma GrantsGrow(claims: seq<nat>, grants: seq<TicketQueue.Grant>, n: nat, t: nat, consumers: nat)
    requires t < consumers && forall j :: 0 <= j < |grants| ==> GrantOk(claims, grants[j], consumers)
    ensures var grants' := grants + [TicketQueue.Grant(t, |claims|, n)];
            forall j :: 0 <= j < |grants'| ==> GrantOk(claims + seq(n, _ => t), grants'[j], consumers)
  {
    forall j | 0 <= j < |grants| ensures GrantOk(claims + seq(n, _ => t), grants[j], consumers) {
      assert GrantOk(claims, grants[j], consumers);
    }
  }

  lemma ClaimedParts(p: Producer, t: nat, n: nat)
    requires t < Consumers(p)
    ensures var p' := Claimed(p, t, n);
            && Head(p') == Head(p) + n && Tail(p') == Tail(p) && Claims(p') == Claims(p) + seq(n, _ => t)
            && Consumers(p') == Consumers(p) && forall u :: 0 <= u < Consumers(p) && u != t ==>
               IsAway(p', u) == IsAway(p, u)
  {
  }

  lemma ClaimingAgrees(s: State, t: nat, s': State)
    requires Agrees(s) && Claiming(s, t, s')
    ensures Agrees(s')
  {
    ClaimStep(s.q, t, s'.q);
    hide TicketQueue.Moves, GrantOk, Claimed, Head, Tail, Claims, Consumers, IsAway;
    var n := s.q.tickets[s.q.pc[t].k].actual;
    ClaimedParts(s.p, t, n);
    GrantsGrow(Claims(s.p), s.q.grants, n, t, Consumers(s.p));
  }

  lemma ClaimingInv(s: State, t: nat, s': State)
    requires Inv(s) && Claiming(s, t, s') && Fits(s')
    ensures Inv(s')
  {
    ClaimAllowed(s, t, s');
    ClaimingAgrees(s, t, s');
    assert TicketQueue.Next(s.q, s'.q);
    hide TicketQueue.Reachable, ReachableOf, TicketQueue.Fits, FitsOf, NextOf, TicketQueue.Next, Agrees, Claiming;
    TicketsExtend(s.q, s'.q);
    BlocksExtend(s.p, s'.p);
  }

  lemma NextInv(s: State, s': State)
    requires Inv(s) && Next(s, s') && Fits(s')
    ensures Inv(s')
  {
    hide Inv, Produces, Begins, Tickets, Claiming, Consumes, Fits;
    if Produces(s, s') {
      ProducesInv(s, s');
    } else if t: nat, max: nat :| Begins(s, t, max, s') {
      BeginsInv(s, t, max, s');
    } else {
      var t: nat :| Tickets(s, t, s') || Claiming(s, t, s') || Consumes(s, t, s');
      if Tickets(s, t, s') {
        TicketsInv(s, t, s');
      } else if Claiming(s, t, s') {
        ClaimingInv(s, t, s');
      } else {
        ConsumesInv(s, t, s');
      }
    }
  }

  lemma {:induction false} RunInv(run: seq<State>)
    requires Run(run)
    ensures Inv(run[|run| - 1])
  {
    hide Inv, Next, Fits, Init;
    if |run| == 1 {
      InitInv(run[0]);
    } else {
      var shorter, s := run[..|run| - 1], run[|run| - 2];
      RunInv(shorter);
      assert Next(s, run[|run| - 2 + 1]);
      NextInv(s, run[|run| - 1]);
    }
  }

  // ----------------------------------------------------------- main results

  lemma ReachableInv(s: State)
    requires Reachable(s)
    ensures Inv(s)
  {
    hide Inv;
    var run: seq<State> :| Run(run) && run[|run| - 1] == s;
    RunInv(run);
  }

  /** In every run of the whole sub-queue the tickets and the blocks keep all that was proved of each
      by itself, and claim by claim they agree. */
  lemma PartsAgree(s: State)
    requires Reachable(s)
    ensures TicketQueue.Reachable(s.q) && ReachableOf(s.p) && Agrees(s)
  {
    hide Reachable, TicketQueue.Reachable, ReachableOf, Agrees;
    ReachableInv(s);
  }

  /** Every grant of the ticket protocol is a claim that the producer's blocks are ready for: of
      published indices, by a thread that has no other dequeue under way. */
  lemma GrantIsClaim(s: State, t: nat, s': State)
    requires Reachable(s) && Claiming(s, t, s')
    ensures s.q.pc[t].k < |s.q.tickets|
    ensures var n := s.q.tickets[s.q.pc[t].k].actual;
            && n > 0 && Head(s.p) + n <= Tail(s.p) && IsAway(s.p, t) && NextOf(s.p, s'.p)
  {
    ReachableInv(s);
    hide Reachable, Inv, NextOf, TicketQueue.Moves;
    ClaimAllowed(s, t, s');
  }

  /** A dequeue that has returned has read, at each index it was granted, the element enqueued there. */
  lemma GetsWhatWasGranted(s: State, j: nat, i: nat)
    requires Reachable(s) && j < |s.q.grants| && TicketQueue.Covers(s.q.grants[j], i)
    requires s.q.grants[j].t < Consumers(s.p) ==> IsAway(s.p, s.q.grants[j].t)
    ensures i < |Values(s.p)| && i in Got(s.p) && Got(s.p)[i] == Values(s.p)[i]
  {
    hide Reachable, BlockIndex.Reachable, ImplicitIndex.Reachable, TicketQueue.Reachable;
    PartsAgree(s);
    assert GrantOk(Claims(s.p), s.q.grants[j], Consumers(s.p));
    if s.p.Explicit? {
      BlockIndex.ClaimedIsRead(s.p.e, i);
    } else {
      ImplicitIndex.ReadsWhatWasWritten(s.p.i);
    }
  }

  /** The published elements are the first of those passed to enqueue, all of them between calls. */
  lemma PublishedAccepted(p: Producer)
    requires ReachableOf(p)
    ensures Tail(p) <= |Values(p)| && Tail(p) <= |Accepted(p)| && Values(p)[..Tail(p)] == Accepted(p)[..Tail(p)]
    ensures AtRestOf(p) ==> Tail(p) == |Accepted(p)|
  {
    hide BlockIndex.Reachable, ImplicitIndex.Reachable;
    if p.Explicit? {
      BlockIndex.AcceptedIsPublished(p.e);
    } else {
      ImplicitIndex.AcceptedIsPublished(p.i);
    }
  }

  /** Once all dequeues have returned, the elements taken are the oldest of those passed to enqueue, as
      many as headIndex says: each was granted to exactly one dequeue, and read by it.  With no
      enqueue under way either, all the others are there to be taken. */
  lemma AtRest(s: State, i: nat)
    requires Reachable(s) && forall t :: 0 <= t < Consumers(s.p) ==> IsAway(s.p, t)
    requires i < Head(s.p)
    ensures exists j :: 0 <= j < |s.q.grants| && TicketQueue.Covers(s.q.grants[j], i)
    ensures forall j, k :: 0 <= j < k < |s.q.grants| ==>
              !(TicketQueue.Covers(s.q.grants[j], i) && TicketQueue.Covers(s.q.grants[k], i))
    ensures i < |Accepted(s.p)| && i in Got(s.p) && Got(s.p)[i] == Accepted(s.p)[i]
    ensures Head(s.p) <= Tail(s.p) && (AtRestOf(s.p) ==> Tail(s.p) == |Accepted(s.p)|)
  {
    hide Reachable, BlockIndex.Reachable, ImplicitIndex.Reachable, TicketQueue.Reachable;
    PartsAgree(s);
    TicketQueue.EachIndexOnce(s.q, i);
    TicketQueue.HeadWithinTail(s.q);
    var j :| 0 <= j < |s.q.grants| && TicketQueue.Covers(s.q.grants[j], i);
    GetsWhatWasGranted(s, j, i);
    PublishedAccepted(s.p);
    assert Values(s.p)[i] == Values(s.p)[..Tail(s.p)][i];
  }
}
