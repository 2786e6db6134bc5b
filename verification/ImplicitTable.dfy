/** The table that gives each thread its implicit producer: a linear-probe hash table that grows by
    publishing a bigger one in front of it and copies entries over lazily, with thread-local support
    off and no failed allocation.

    Threads interleave one access at a time; thread ids are numbers, the tables are kept in the
    order of publication, and the main one is the last.  Masking with a capacity, which is a power of
    two, is taking the remainder.  `ticket`, `given` and `owner` are history: no step looks at them. */
module ImplicitTable {
  import opened Counting
  import opened Words

  datatype Key = Empty | Id(id: nat)

  datatype Option<T> = None | Some(value: T)

  datatype Table = Table(keys: seq<Key>, values: seq<nat>)

  datatype Pc =
    | Idle
    | Start                                          // load the main table
    | Look(main: nat, h: nat, k: nat)                // probe number k in table h: load the key
    | CopyProbe(main: nat, v: nat, k: nat)           // found further back: load a key of the main table
    | CopyCas(main: nat, v: nat, k: nat)             //   CAS that key from empty to the id
    | CopyValue(main: nat, v: nat, i: nat)           //   store the value
    | Count(main: nat)                               // not found: fetch_add of the count
    | Try(main: nat, nc: nat)                        // big enough? if not, test_and_set of the resize flag
    | ReloadLocked(nc: nat)                          //   with the flag: load the main table again
    | Publish(main: nat, nc: nat)                    //   store the new main table
    | Unlock(main: nat, nc: nat)                     //   clear the flag
    | Fit(main: nat, nc: nat)                        // three quarters?  create the producer, or
    | Reload(nc: nat)                                //   load the main table and try again
    | Probe(main: nat, p: nat, k: nat)               // insert: load a key
    | Cas(main: nat, p: nat, k: nat)                 //   CAS it from empty to the id
    | Store(main: nat, p: nat, i: nat)               //   store the value
    | Return(v: nat, main: nat)                      // found, or put, in that table

  datatype State = State(
    pc: seq<Pc>,
    hash: seq<nat>,
    tables: seq<Table>,
    locked: bool,
    count: nat,
    producers: nat,
    ticket: seq<nat>,
    given: seq<Option<nat>>,
    owner: Option<nat>)

  function Blank(capacity: nat): Table {
    Table(seq(capacity, _ => Empty), seq(capacity, _ => 0))
  }

  ghost predicate Init(s: State) {
    && |s.hash| == |s.ticket| == |s.given| == |s.pc|
    && |s.tables| == 1 && |s.tables[0].keys| >= 1 && s.tables[0] == Blank(|s.tables[0].keys|)
    && !s.locked && s.count == s.producers == 0 && s.owner == None
    && (forall t :: 0 <= t < |s.pc| ==> s.pc[t] == Idle)
    && (forall t :: 0 <= t < |s.pc| ==> s.ticket[t] == 0)
    && (forall t :: 0 <= t < |s.pc| ==> s.given[t] == None)
  }

  // ------------------------------------------------------------------ steps

  function Capacity(tb: Table): nat {
    |tb.keys|
  }

  /** Three quarters, as the code computes it. */
  function Limit(capacity: nat): nat {
    capacity / 2 + capacity / 4
  }

  /** The slot of probe number k. */
  function ProbeSlot(capacity: nat, h: nat, k: nat): (i: nat)
    requires capacity >= 1
    ensures i < capacity
  {
    (h + k) % capacity
  }

  /** The capacity doubled until the count is below half of it. */
  function Enough(capacity: nat, nc: nat): (c: nat)
    requires capacity >= 1
    ensures nc < c / 2 && c >= capacity
    decreases if nc >= capacity / 2 then nc - capacity / 2 + 1 else 0
  {
    if nc >= capacity / 2 then Enough(2 * capacity, nc) else capacity
  }

  predicate InTable(s: State, j: nat) {
    j < |s.tables| && |s.tables[j].keys| >= 1 && |s.tables[j].values| == |s.tables[j].keys|
  }

  predicate Enabled(s: State, t: nat) {
    && t < |s.pc| == |s.hash| == |s.ticket| == |s.given| && |s.tables| > 0
    && var p := s.pc[t];
    && (p.Look? ==> InTable(s, p.h) && p.main < |s.tables|)
    && (p.CopyProbe? || p.CopyCas? || p.CopyValue? ==> InTable(s, p.main))
    && (p.Try? || p.Publish? || p.Fit? ==> InTable(s, p.main))
    && (p.Probe? || p.Cas? || p.Store? ==> InTable(s, p.main))
    && (p.CopyValue? || p.Store? ==> p.i < |s.tables[p.main].keys|)
    && (p.ReloadLocked? ==> InTable(s, |s.tables| - 1))
  }

  function SetKey(tables: seq<Table>, j: nat, i: nat, key: Key): seq<Table>
    requires j < |tables| && i < |tables[j].keys|
  {
    tables[j := tables[j].(keys := tables[j].keys[i := key])]
  }

  function SetValue(tables: seq<Table>, j: nat, i: nat, v: nat): seq<Table>
    requires j < |tables| && i < |tables[j].values|
  {
    tables[j := tables[j].(values := tables[j].values[i := v])]
  }

  /** The state after thread t's next access; an idle thread begins a call. */
  function Access(s: State, t: nat): State
    requires Enabled(s, t)
  {
    match s.pc[t]
    case Idle =>
      s.(pc := s.pc[t := Start])
    case Start =>
      s.(pc := s.pc[t := Look(|s.tables| - 1, |s.tables| - 1, 0)])
    case Look(main, h, k) =>
      var tb := s.tables[h];
      var i := ProbeSlot(Capacity(tb), s.hash[t], k);
      if tb.keys[i] == Id(t)
      then s.(pc := s.pc[t := if h != main then CopyProbe(main, tb.values[i], 0) else Return(tb.values[i], main)])
      else if tb.keys[i] == Empty
      then s.(pc := s.pc[t := if h > 0 then Look(main, h - 1, 0) else Count(main)])
      else s.(pc := s.pc[t := Look(main, h, k + 1)])
    case CopyProbe(main, v, k) =>
      var i := ProbeSlot(Capacity(s.tables[main]), s.hash[t], k);
      s.(pc := s.pc[t := if s.tables[main].keys[i] == Empty then CopyCas(main, v, k) else CopyProbe(main, v, k + 1)])
    case CopyCas(main, v, k) =>
      var i := ProbeSlot(Capacity(s.tables[main]), s.hash[t], k);
      if s.tables[main].keys[i] == Empty
      then s.(pc := s.pc[t := CopyValue(main, v, i)], tables := SetKey(s.tables, main, i, Id(t)))
      else s.(pc := s.pc[t := CopyProbe(main, v, k + 1)])
    case CopyValue(main, v, i) =>
      s.(pc := s.pc[t := Return(v, main)], tables := SetValue(s.tables, main, i, v))
    case Count(main) =>
      s.(pc := s.pc[t := Try(main, s.count + 1)], count := s.count + 1, ticket := s.ticket[t := s.count + 1])
    case Try(main, nc) =>
      if nc >= Capacity(s.tables[main]) / 2 && !s.locked
      then s.(pc := s.pc[t := ReloadLocked(nc)], locked := true, owner := Some(t))
      else s.(pc := s.pc[t := Fit(main, nc)])
    case ReloadLocked(nc) =>
      var main := |s.tables| - 1;
      s.(pc := s.pc[t := if nc >= Capacity(s.tables[main]) / 2 then Publish(main, nc) else Unlock(main, nc)])
    case Publish(main, nc) =>
      var newCapacity := Enough(2 * Capacity(s.tables[main]), nc);
      s.(pc := s.pc[t := Unlock(|s.tables|, nc)], tables := s.tables + [Blank(newCapacity)])
    case Unlock(main, nc) =>
      s.(pc := s.pc[t := Fit(main, nc)], locked := false, owner := None)
    case Fit(main, nc) =>
      if nc < Limit(Capacity(s.tables[main]))
      then s.(pc := s.pc[t := Probe(main, s.producers, 0)], producers := s.producers + 1,
              given := s.given[t := Some(s.producers)])
      else s.(pc := s.pc[t := Reload(nc)])
    case Reload(nc) =>
      s.(pc := s.pc[t := Try(|s.tables| - 1, nc)])
    case Probe(main, p, k) =>
      var i := ProbeSlot(Capacity(s.tables[main]), s.hash[t], k);
      s.(pc := s.pc[t := if s.tables[main].keys[i] == Empty then Cas(main, p, k) else Probe(main, p, k + 1)])
    case Cas(main, p, k) =>
      var i := ProbeSlot(Capacity(s.tables[main]), s.hash[t], k);
      if s.tables[main].keys[i] == Empty
      then s.(pc := s.pc[t := Store(main, p, i)], tables := SetKey(s.tables, main, i, Id(t)))
      else s.(pc := s.pc[t := Probe(main, p, k + 1)])
    case Store(main, p, i) =>
      s.(pc := s.pc[t := Return(p, main)], tables := SetValue(s.tables, main, i, p))
    case Return(_, _) =>
      s.(pc := s.pc[t := Idle])
  }

  ghost predicate StepOf(s: State, t: nat, s': State) {
    Enabled(s, t) && s' == Access(s, t)
  }

  ghost predicate Next(s: State, s': State) {
    exists t: nat :: StepOf(s, t, s')
  }

  /** A run: any interleaving of any number of threads, each calling any number of times. */
  ghost predicate Run(run: seq<State>) {
    && |run| > 0 && Init(run[0])
    && (forall i :: 0 <= i < |run| - 1 ==> Next(run[i], run[i + 1]))
  }

  ghost predicate Reachable(s: State) {
    exists run: seq<State> :: Run(run) && run[|run| - 1] == s
  }

  // -------------------------------------------------------------- invariant

  ghost predicate Holds(tb: Table, t: nat) {
    Id(t) in tb.keys
  }

  ghost predicate Nowhere(tables: seq<Table>, t: nat) {
    forall j :: 0 <= j < |tables| ==> !Holds(tables[j], t)
  }

  /** The first k slots on the way of a hash code are taken. */
  ghost predicate PathTaken(tb: Table, h: nat, k: nat) {
    Capacity(tb) >= 1 && forall j: nat :: j < k ==> tb.keys[ProbeSlot(Capacity(tb), h, j)] != Empty
  }

  /** None of them by t. */
  ghost predicate PathWithout(tb: Table, h: nat, k: nat, t: nat) {
    Capacity(tb) >= 1 && forall j: nat :: j < k ==> tb.keys[ProbeSlot(Capacity(tb), h, j)] != Id(t)
  }

  /** If t is at probe d of its way, all slots before are taken. */
  ghost predicate OnPath(tb: Table, h: nat, t: nat) {
    Capacity(tb) >= 1 && forall d: nat :: d < Capacity(tb) && tb.keys[ProbeSlot(Capacity(tb), h, d)] == Id(t) ==>
      PathTaken(tb, h, d)
  }

  ghost predicate TableOk(tb: Table, hash: seq<nat>, ticket: seq<nat>)
    requires |hash| == |ticket|
  {
    && Capacity(tb) >= 1 && |tb.values| == |tb.keys|
    && (forall i :: 0 <= i < |tb.keys| && tb.keys[i].Id? ==>
        && tb.keys[i].id < |ticket|
        && 1 <= ticket[tb.keys[i].id] < Limit(Capacity(tb)))
    && (forall i, j :: 0 <= i < j < |tb.keys| && tb.keys[i].Id? ==> tb.keys[i] != tb.keys[j])
    && (forall t :: 0 <= t < |hash| ==> OnPath(tb, hash[t], t))
  }

  ghost predicate TablesOk(tables: seq<Table>, hash: seq<nat>, ticket: seq<nat>)
    requires |hash| == |ticket|
  {
    && |tables| >= 1
    && (forall j :: 0 <= j < |tables| ==> TableOk(tables[j], hash, ticket))
    && (forall i, j :: 0 <= i < j < |tables| ==> Capacity(tables[i]) <= Capacity(tables[j]))
  }

  ghost predicate TicketsOk(ticket: seq<nat>, count: nat) {
    && (forall t :: 0 <= t < |ticket| ==> ticket[t] <= count)
    && (forall t, u :: 0 <= t < u < |ticket| && ticket[t] != 0 ==> ticket[t] != ticket[u])
  }

  ghost predicate GivenOk(given: seq<Option<nat>>, producers: nat) {
    && (forall t :: 0 <= t < |given| && given[t].Some? ==> given[t].value < producers)
    && (forall t, u :: 0 <= t < u < |given| && given[t].Some? ==> given[t] != given[u])
  }

  /** The thread is about to store the value of slot i of table j. */
  predicate Writes(p: Pc, j: nat, i: nat) {
    (p.Store? && p.main == j && p.i == i) || (p.CopyValue? && p.main == j && p.i == i)
  }

  ghost predicate SlotOk(tables: seq<Table>, given: seq<Option<nat>>, pc: seq<Pc>, j: nat, i: nat)
    requires j < |tables| && i < |tables[j].keys| == |tables[j].values|
  {
    var key := tables[j].keys[i];
    key.Id? && key.id < |given| == |pc| ==> given[key.id] == Some(tables[j].values[i]) || Writes(pc[key.id], j, i)
  }

  ghost predicate ValuesOk(tables: seq<Table>, given: seq<Option<nat>>, pc: seq<Pc>) {
    forall j, i :: 0 <= j < |tables| && 0 <= i < |tables[j].keys| == |tables[j].values| ==>
      SlotOk(tables, given, pc, j, i)
  }

  predicate HasLock(p: Pc) {
    p.ReloadLocked? || p.Publish? || p.Unlock?
  }

  /** The first call is on its way, between taking the ticket and getting the producer. */
  predicate Ticketed(p: Pc) {
    p.Try? || HasLock(p) || p.Fit? || p.Reload?
  }

  /** Thread t, on its way to put its id in a table that has room for its ticket. */
  ghost predicate Ready(tb: Table, t: nat, h: nat, k: nat, ticket: nat) {
    !Holds(tb, t) && PathTaken(tb, h, k) && 1 <= ticket < Limit(Capacity(tb))
  }

  /** What thread t may rely on, said of the tables and of its own history only. */
  ghost predicate PcOk(p: Pc, t: nat, h: nat, tables: seq<Table>, ticket: nat, given: Option<nat>, owner: Option<nat>) {
    && (HasLock(p) <==> owner == Some(t))
    && (p.Idle? || p.Start? || p.Look? ==> (ticket != 0 <==> !Nowhere(tables, t)))
    && (p.Count? ==> ticket == 0 && Nowhere(tables, t) && p.main < |tables|)
    && (p.Look? ==> p.h <= p.main < |tables| && PathTaken(tables[p.h], h, p.k) && PathWithout(tables[p.h], h, p.k, t))
    && (p.Look? ==> forall j :: p.h < j < |tables| ==> !Holds(tables[j], t))
    && (p.CopyProbe? || p.CopyCas? ==> p.main < |tables| && Ready(tables[p.main], t, h, p.k, ticket))
    && (p.CopyProbe? || p.CopyCas? ==> !Nowhere(tables, t) && given == Some(p.v))
    && (p.CopyValue? ==>
        && p.main < |tables| && p.i < |tables[p.main].keys| && tables[p.main].keys[p.i] == Id(t)
        && ticket != 0 && given == Some(p.v))
    && (Ticketed(p) ==> ticket == p.nc >= 1 && Nowhere(tables, t))
    && (p.Try? || p.Publish? || p.Unlock? || p.Fit? ==> p.main < |tables|)
    && (p.Publish? ==> p.main == |tables| - 1)
    && (p.Unlock? ==> p.nc < Limit(Capacity(tables[p.main])))
    && (p.Probe? || p.Cas? ==> p.main < |tables| && Ready(tables[p.main], t, h, p.k, ticket))
    && (p.Probe? || p.Cas? ==> Nowhere(tables, t) && given == Some(p.p))
    && (p.Store? ==>
        && p.main < |tables| && p.i < |tables[p.main].keys| && tables[p.main].keys[p.i] == Id(t)
        && ticket != 0 && given == Some(p.p))
    && (p.Return? ==> ticket != 0 && p.main < |tables| && Holds(tables[p.main], t) && given == Some(p.v))
    && (given == None <==> ticket == 0 || Ticketed(p))
  }

  ghost predicate ThreadOk(s: State, t: nat)
    requires t < |s.pc| == |s.hash| == |s.ticket| == |s.given|
  {
    PcOk(s.pc[t], t, s.hash[t], s.tables, s.ticket[t], s.given[t], s.owner)
  }

  ghost predicate Inv(s: State) {
    && |s.pc| == |s.hash| == |s.ticket| == |s.given|
    && TablesOk(s.tables, s.hash, s.ticket)
    && TicketsOk(s.ticket, s.count)
    && GivenOk(s.given, s.producers)
    && ValuesOk(s.tables, s.given, s.pc)
    && (s.locked <==> s.owner != None)
    && (forall t :: 0 <= t < |s.pc| ==> ThreadOk(s, t))
  }

  lemma InitInv(s: State)
    requires Init(s)
    ensures Inv(s)
  {
  }

  // ------------------------------------------------------------ one table

  /** Every slot is on the way of every hash code, once. */
  lemma SlotOnto(capacity: nat, h: nat, i: nat) returns (d: nat)
    requires i < capacity
    ensures d < capacity && ProbeSlot(capacity, h, d) == i
  {
    var r := h % capacity;
    d := if r <= i then i - r else i - r + capacity;
    var q := h / capacity;
    assert h == q * capacity + r;
    if r <= i {
      DivMod(h + d, capacity, q, i);
    } else {
      MulDistribute(q, 1, capacity);
      DivMod(h + d, capacity, q + 1, i);
    }
  }

  lemma SlotInjective(capacity: nat, h: nat, d: nat, k: nat)
    requires d < k < d + capacity
    ensures ProbeSlot(capacity, h, d) != ProbeSlot(capacity, h, k)
  {
    SlotsDistinct(h + d, h + k, capacity);
  }

  lemma SlotPeriod(capacity: nat, h: nat, k: nat)
    requires 1 <= capacity <= k
    ensures ProbeSlot(capacity, h, k) == ProbeSlot(capacity, h, k - capacity)
  {
    var x := h + k - capacity;
    MulDistribute(x / capacity, 1, capacity);
    DivMod(h + k, capacity, x / capacity + 1, x % capacity);
  }

  /** A free slot on the way ends the search. */
  lemma NotHere(tb: Table, h: nat, k: nat, t: nat)
    requires PathWithout(tb, h, k, t) && OnPath(tb, h, t) && tb.keys[ProbeSlot(Capacity(tb), h, k)] == Empty
    ensures !Holds(tb, t)
  {
    hide ProbeSlot;
    if Holds(tb, t) {
      var i :| 0 <= i < |tb.keys| && tb.keys[i] == Id(t);
      var d := SlotOnto(Capacity(tb), h, i);
      assert false;
    }
  }

  lemma FreeWithinCapacity(tb: Table, h: nat, k: nat)
    requires PathTaken(tb, h, k) && tb.keys[ProbeSlot(Capacity(tb), h, k)] == Empty
    ensures k < Capacity(tb)
  {
    hide ProbeSlot;
    if k >= Capacity(tb) {
      SlotPeriod(Capacity(tb), h, k);
      assert false;
    }
  }

  lemma PathExtends(tb: Table, h: nat, k: nat, t: nat)
    requires PathTaken(tb, h, k) && tb.keys[ProbeSlot(Capacity(tb), h, k)] != Empty
    ensures PathTaken(tb, h, k + 1)
    ensures PathWithout(tb, h, k, t) && tb.keys[ProbeSlot(Capacity(tb), h, k)] != Id(t) ==> PathWithout(tb, h, k + 1, t)
  {
  }

  /** Putting an id in the first free slot on its way keeps a table well-formed. */
  lemma InsertedOk(tb: Table, hash: seq<nat>, ticket: seq<nat>, t: nat, k: nat)
    requires |hash| == |ticket| && TableOk(tb, hash, ticket) && t < |hash|
    requires Ready(tb, t, hash[t], k, ticket[t]) && tb.keys[ProbeSlot(Capacity(tb), hash[t], k)] == Empty
    ensures TableOk(tb.(keys := tb.keys[ProbeSlot(Capacity(tb), hash[t], k) := Id(t)]), hash, ticket)
  {
    hide ProbeSlot;
    var i := ProbeSlot(Capacity(tb), hash[t], k);
    var tb' := tb.(keys := tb.keys[i := Id(t)]);
    FreeWithinCapacity(tb, hash[t], k);
    forall u | 0 <= u < |hash| ensures OnPath(tb', hash[u], u) {
      assert OnPath(tb, hash[u], u);
      forall d: nat | d < Capacity(tb') && tb'.keys[ProbeSlot(Capacity(tb'), hash[u], d)] == Id(u)
        ensures PathTaken(tb', hash[u], d)
      {
        if u == t && k < d {
          SlotInjective(Capacity(tb), hash[t], k, d);
        }
      }
    }
  }

  // --------------------------------------------------- what others may see

  ghost predicate TableGrew(tb: Table, tb': Table, u: nat) {
    && |tb'.keys| == |tb.keys|
    && (forall i :: 0 <= i < |tb.keys| && tb.keys[i] != Empty ==> tb'.keys[i] == tb.keys[i])
    && (forall i :: 0 <= i < |tb.keys| && tb'.keys[i] == Id(u) ==> tb.keys[i] == Id(u))
  }

  /** Tables only gain keys, none of them u's. */
  ghost predicate Grew(tables: seq<Table>, tables': seq<Table>, u: nat) {
    && |tables| <= |tables'|
    && (forall j :: 0 <= j < |tables| ==> TableGrew(tables[j], tables'[j], u))
    && (forall j :: |tables| <= j < |tables'| ==> !Holds(tables'[j], u))
  }

  lemma HoldsFrame(tb: Table, tb': Table, u: nat)
    requires TableGrew(tb, tb', u)
    ensures Holds(tb', u) <==> Holds(tb, u)
  {
    if Holds(tb, u) {
      var i :| 0 <= i < |tb.keys| && tb.keys[i] == Id(u);
      assert tb'.keys[i] == Id(u);
    }
  }

  lemma PathFrame(tb: Table, tb': Table, u: nat, h: nat, k: nat)
    requires TableGrew(tb, tb', u)
    ensures PathTaken(tb, h, k) ==> PathTaken(tb', h, k)
    ensures PathTaken(tb, h, k) && PathWithout(tb, h, k, u) ==> PathWithout(tb', h, k, u)
  {
    hide ProbeSlot;
  }

  lemma NowhereFrame(tables: seq<Table>, tables': seq<Table>, u: nat)
    requires Grew(tables, tables', u)
    ensures Nowhere(tables', u) <==> Nowhere(tables, u)
  {
    hide Holds, TableGrew;
    forall j | 0 <= j < |tables| ensures Holds(tables'[j], u) <==> Holds(tables[j], u) {
      HoldsFrame(tables[j], tables'[j], u);
    }
  }

  lemma PcOkFrame(p: Pc, u: nat, h: nat, tables: seq<Table>, tables': seq<Table>, ticket: nat, given: Option<nat>,
      owner: Option<nat>, owner': Option<nat>)
    requires PcOk(p, u, h, tables, ticket, given, owner) && Grew(tables, tables', u)
    requires (owner' == Some(u)) == (owner == Some(u)) && (owner == Some(u) ==> |tables'| == |tables|)
    ensures PcOk(p, u, h, tables', ticket, given, owner')
  {
    hide Nowhere, Holds, PathTaken, PathWithout;
    NowhereFrame(tables, tables', u);
    forall j | 0 <= j < |tables| ensures Holds(tables'[j], u) <==> Holds(tables[j], u) {
      HoldsFrame(tables[j], tables'[j], u);
    }
    if p.Look? {
      PathFrame(tables[p.h], tables'[p.h], u, h, p.k);
    } else if p.CopyProbe? || p.CopyCas? || p.Probe? || p.Cas? {
      PathFrame(tables[p.main], tables'[p.main], u, h, p.k);
    }
  }

  lemma GrewSame(tables: seq<Table>, u: nat)
    ensures Grew(tables, tables, u)
  {
  }

  lemma GrewKey(tables: seq<Table>, j: nat, i: nat, t: nat, u: nat)
    requires j < |tables| && i < |tables[j].keys| && tables[j].keys[i] == Empty && u != t
    ensures Grew(tables, SetKey(tables, j, i, Id(t)), u)
  {
  }

  lemma GrewValue(tables: seq<Table>, j: nat, i: nat, v: nat, u: nat)
    requires j < |tables| && i < |tables[j].values|
    ensures Grew(tables, SetValue(tables, j, i, v), u)
  {
  }

  lemma GrewBlank(tables: seq<Table>, capacity: nat, u: nat)
    ensures Grew(tables, tables + [Blank(capacity)], u)
  {
    assert forall j :: 0 <= j < |tables| ==> (tables + [Blank(capacity)])[j] == tables[j];
  }

  /** All other threads may go on relying on what they did. */
  lemma OthersOk(s: State, t: nat, s': State)
    requires Inv(s) && t < |s.pc| && |s'.pc| == |s'.hash| == |s'.ticket| == |s'.given| == |s.pc|
    requires forall u :: 0 <= u < |s.pc| && u != t ==> Untouched(s, s', u)
    ensures forall u :: 0 <= u < |s.pc| && u != t ==> ThreadOk(s', u)
  {
    hide Grew, PcOk;
    forall u | 0 <= u < |s.pc| && u != t ensures ThreadOk(s', u) {
      assert ThreadOk(s, u) && Untouched(s, s', u);
      PcOkFrame(s.pc[u], u, s.hash[u], s.tables, s'.tables, s.ticket[u], s.given[u], s.owner, s'.owner);
    }
  }

  ghost predicate Untouched(s: State, s': State, u: nat) {
    && u < |s.pc| == |s.hash| == |s.ticket| == |s.given|
    && |s'.pc| == |s'.hash| == |s'.ticket| == |s'.given| == |s.pc|
    && s'.pc[u] == s.pc[u] && s'.hash[u] == s.hash[u] && s'.ticket[u] == s.ticket[u] && s'.given[u] == s.given[u]
    && Grew(s.tables, s'.tables, u)
    && (s'.owner == Some(u)) == (s.owner == Some(u)) && (s.owner == Some(u) ==> |s'.tables| == |s.tables|)
  }

  // ---------------------------------------------------------- single steps

  predicate Writing(p: Pc) {
    p.Store? || p.CopyValue?
  }

  lemma ValuesPc(tables: seq<Table>, given: seq<Option<nat>>, pc: seq<Pc>, t: nat, p: Pc)
    requires ValuesOk(tables, given, pc) && t < |pc| && !Writing(pc[t])
    ensures ValuesOk(tables, given, pc[t := p])
  {
    var pc' := pc[t := p];
    forall j, i | 0 <= j < |tables| && 0 <= i < |tables[j].keys| == |tables[j].values|
      ensures SlotOk(tables, given, pc', j, i)
    {
      assert SlotOk(tables, given, pc, j, i);
    }
  }

  lemma ValuesGiven(tables: seq<Table>, given: seq<Option<nat>>, pc: seq<Pc>, t: nat, v: Option<nat>)
    requires ValuesOk(tables, given, pc) && t < |given| && Nowhere(tables, t)
    ensures ValuesOk(tables, given[t := v], pc)
  {
    var given' := given[t := v];
    forall j, i | 0 <= j < |tables| && 0 <= i < |tables[j].keys| == |tables[j].values|
      ensures SlotOk(tables, given', pc, j, i)
    {
      assert SlotOk(tables, given, pc, j, i);
      assert !Holds(tables[j], t);
    }
  }

  lemma ValuesKey(tables: seq<Table>, given: seq<Option<nat>>, pc: seq<Pc>, t: nat, j: nat, i: nat, p: Pc)
    requires ValuesOk(tables, given, pc) && t < |pc| && !Writing(pc[t])
    requires j < |tables| && i < |tables[j].keys| && Writes(p, j, i)
    ensures ValuesOk(SetKey(tables, j, i, Id(t)), given, pc[t := p])
  {
    var tables' := SetKey(tables, j, i, Id(t));
    var pc' := pc[t := p];
    forall j', i' | 0 <= j' < |tables'| && 0 <= i' < |tables'[j'].keys| == |tables'[j'].values|
      ensures SlotOk(tables', given, pc', j', i')
    {
      assert SlotOk(tables, given, pc, j', i');
    }
  }

  lemma ValuesValue(tables: seq<Table>, given: seq<Option<nat>>, pc: seq<Pc>, t: nat, j: nat, i: nat, v: nat, p: Pc)
    requires ValuesOk(tables, given, pc) && t < |pc| == |given| && Writes(pc[t], j, i) && given[t] == Some(v)
    requires j < |tables| && i < |tables[j].keys| == |tables[j].values| && tables[j].keys[i] == Id(t)
    ensures ValuesOk(SetValue(tables, j, i, v), given, pc[t := p])
  {
    var tables' := SetValue(tables, j, i, v);
    var pc' := pc[t := p];
    forall j', i' | 0 <= j' < |tables'| && 0 <= i' < |tables'[j'].keys| == |tables'[j'].values|
      ensures SlotOk(tables', given, pc', j', i')
    {
      assert SlotOk(tables, given, pc, j', i');
    }
  }

  lemma ValuesBlank(tables: seq<Table>, given: seq<Option<nat>>, pc: seq<Pc>, capacity: nat)
    requires ValuesOk(tables, given, pc)
    ensures ValuesOk(tables + [Blank(capacity)], given, pc)
  {
    var tables' := tables + [Blank(capacity)];
    forall j, i | 0 <= j < |tables'| && 0 <= i < |tables'[j].keys| == |tables'[j].values|
      ensures SlotOk(tables', given, pc, j, i)
    {
      if j < |tables| {
        assert SlotOk(tables, given, pc, j, i);
      }
    }
  }

  /** A step that moves the thread, and perhaps takes or frees the lock. */
  lemma LockStep(s: State, t: nat, p: Pc, locked: bool, owner: Option<nat>)
    requires Inv(s) && t < |s.pc| && !Writing(s.pc[t]) && (locked <==> owner != None)
    requires s.owner == owner || (s.owner == None && owner == Some(t)) || (s.owner == Some(t) && owner == None)
    requires PcOk(p, t, s.hash[t], s.tables, s.ticket[t], s.given[t], owner)
    ensures Inv(s.(pc := s.pc[t := p], locked := locked, owner := owner))
  {
    hide PcOk, Grew, TablesOk, TicketsOk, GivenOk, ValuesOk;
    var s' := s.(pc := s.pc[t := p], locked := locked, owner := owner);
    forall u | 0 <= u < |s.pc| && u != t ensures Untouched(s, s', u) {
      GrewSame(s.tables, u);
    }
    OthersOk(s, t, s');
    ValuesPc(s.tables, s.given, s.pc, t, p);
    assert ThreadOk(s', t);
  }

  /** A step that only moves the thread. */
  lemma PcStep(s: State, t: nat, p: Pc)
    requires Inv(s) && t < |s.pc| && !Writing(s.pc[t])
    requires PcOk(p, t, s.hash[t], s.tables, s.ticket[t], s.given[t], s.owner)
    ensures Inv(s.(pc := s.pc[t := p]))
  {
    hide Inv, PcOk;
    assert s.locked <==> s.owner != None by { LockFact(s); }
    assert s.(pc := s.pc[t := p]) == s.(pc := s.pc[t := p], locked := s.locked, owner := s.owner);
    LockStep(s, t, p, s.locked, s.owner);
  }

  lemma LockFact(s: State)
    requires Inv(s)
    ensures s.locked <==> s.owner != None
  {
  }

  lemma SimpleInv(s: State, t: nat)
    requires Inv(s) && Enabled(s, t)
    requires s.pc[t].Idle? || s.pc[t].Start? || s.pc[t].Reload? || s.pc[t].Return?
    ensures Inv(Access(s, t))
  {
    hide TablesOk, TicketsOk, GivenOk, ValuesOk, Nowhere, Holds;
    assert ThreadOk(s, t);
    StartFacts(s, t);
    if s.pc[t].Return? {
      HeldSomewhere(s.tables, s.pc[t].main, t);
    }
    PcStep(s, t, Access(s, t).pc[t]);
  }

  lemma HeldSomewhere(tables: seq<Table>, j: nat, t: nat)
    requires j < |tables| && Holds(tables[j], t)
    ensures !Nowhere(tables, t)
  {
  }

  lemma StartFacts(s: State, t: nat)
    requires Inv(s) && t < |s.pc|
    ensures PathTaken(s.tables[|s.tables| - 1], s.hash[t], 0) && PathWithout(s.tables[|s.tables| - 1], s.hash[t], 0, t)
  {
    assert TableOk(s.tables[|s.tables| - 1], s.hash, s.ticket);
  }

  lemma ZeroPath(tb: Table, hash: seq<nat>, ticket: seq<nat>, h: nat, t: nat)
    requires |hash| == |ticket| && TableOk(tb, hash, ticket)
    ensures PathTaken(tb, h, 0) && PathWithout(tb, h, 0, t)
  {
  }

  lemma NowhereBelow(tables: seq<Table>, t: nat)
    requires |tables| > 0 && !Holds(tables[0], t) && forall j :: 0 < j < |tables| ==> !Holds(tables[j], t)
    ensures Nowhere(tables, t)
  {
  }

  /** The key was found: its value is what the thread was given. */
  lemma FoundValue(s: State, t: nat, j: nat, i: nat)
    requires Inv(s) && t < |s.pc| && j < |s.tables| && i < |s.tables[j].keys| == |s.tables[j].values|
    requires s.tables[j].keys[i] == Id(t) && !Writing(s.pc[t])
    ensures s.given[t] == Some(s.tables[j].values[i]) && Holds(s.tables[j], t) && !Nowhere(s.tables, t)
    ensures 1 <= s.ticket[t] < Limit(Capacity(s.tables[j]))
  {
    assert SlotOk(s.tables, s.given, s.pc, j, i) && TableOk(s.tables[j], s.hash, s.ticket);
    assert Holds(s.tables[j], t);
  }

  /** The id is there. */
  lemma LookFound(s: State, t: nat)
    requires Inv(s) && Enabled(s, t) && s.pc[t].Look?
    requires var tb := s.tables[s.pc[t].h];
             tb.keys[ProbeSlot(Capacity(tb), s.hash[t], s.pc[t].k)] == Id(t)
    ensures Inv(Access(s, t))
  {
    hide TicketsOk, GivenOk, ValuesOk, Nowhere, Holds, PathTaken, PathWithout, ProbeSlot, TableOk, OnPath, Limit;
    assert ThreadOk(s, t);
    var p := s.pc[t];
    var tb := s.tables[p.h];
    assert TableOk(tb, s.hash, s.ticket) && TableOk(s.tables[p.main], s.hash, s.ticket);
    FoundValue(s, t, p.h, ProbeSlot(Capacity(tb), s.hash[t], p.k));
    ZeroPath(s.tables[p.main], s.hash, s.ticket, s.hash[t], t);
    LimitGrows(Capacity(tb), Capacity(s.tables[p.main]));
    PcStep(s, t, Access(s, t).pc[t]);
  }

  /** The id is not in this table. */
  lemma LookFree(s: State, t: nat)
    requires Inv(s) && Enabled(s, t) && s.pc[t].Look?
    requires var tb := s.tables[s.pc[t].h];
             tb.keys[ProbeSlot(Capacity(tb), s.hash[t], s.pc[t].k)] == Empty
    ensures Inv(Access(s, t))
  {
    hide TicketsOk, GivenOk, ValuesOk, Nowhere, Holds, PathTaken, PathWithout, ProbeSlot, TableOk, OnPath, Limit;
    assert ThreadOk(s, t);
    var p := s.pc[t];
    var tb := s.tables[p.h];
    assert TableOk(tb, s.hash, s.ticket) && TableOk(s.tables[p.main], s.hash, s.ticket);
    PathFact(tb, s.hash, s.ticket, t);
    NotHere(tb, s.hash[t], p.k, t);
    if p.h > 0 {
      ZeroPath(s.tables[p.h - 1], s.hash, s.ticket, s.hash[t], t);
    } else {
      NowhereBelow(s.tables, t);
    }
    PcStep(s, t, Access(s, t).pc[t]);
  }

  /** Another id is there. */
  lemma LookOn(s: State, t: nat)
    requires Inv(s) && Enabled(s, t) && s.pc[t].Look?
    requires var tb := s.tables[s.pc[t].h];
             tb.keys[ProbeSlot(Capacity(tb), s.hash[t], s.pc[t].k)] !in {Empty, Id(t)}
    ensures Inv(Access(s, t))
  {
    hide TicketsOk, GivenOk, ValuesOk, Nowhere, Holds, PathTaken, PathWithout, ProbeSlot, TableOk, OnPath, Limit;
    assert ThreadOk(s, t);
    var p := s.pc[t];
    var tb := s.tables[p.h];
    assert TableOk(tb, s.hash, s.ticket) && TableOk(s.tables[p.main], s.hash, s.ticket);
    PathExtends(tb, s.hash[t], p.k, t);
    PcStep(s, t, Access(s, t).pc[t]);
  }

  lemma LookInv(s: State, t: nat)
    requires Inv(s) && Enabled(s, t) && s.pc[t].Look?
    ensures Inv(Access(s, t))
  {
    hide Inv, Access;
    var tb := s.tables[s.pc[t].h];
    var key := tb.keys[ProbeSlot(Capacity(tb), s.hash[t], s.pc[t].k)];
    if key == Id(t) {
      LookFound(s, t);
    } else if key == Empty {
      LookFree(s, t);
    } else {
      LookOn(s, t);
    }
  }

  lemma PathFact(tb: Table, hash: seq<nat>, ticket: seq<nat>, t: nat)
    requires |hash| == |ticket| && TableOk(tb, hash, ticket) && t < |hash|
    ensures OnPath(tb, hash[t], t)
  {
  }

  lemma LimitGrows(c: nat, c': nat)
    requires c <= c'
    ensures Limit(c) <= Limit(c')
  {
  }

  lemma ProbeInv(s: State, t: nat)
    requires Inv(s) && Enabled(s, t) && (s.pc[t].CopyProbe? || s.pc[t].Probe?)
    ensures Inv(Access(s, t))
  {
    hide TicketsOk, GivenOk, ValuesOk, Nowhere, Holds, PathTaken, ProbeSlot, TableOk, Limit;
    assert ThreadOk(s, t);
    var p := s.pc[t];
    var tb := s.tables[p.main];
    if tb.keys[ProbeSlot(Capacity(tb), s.hash[t], p.k)] != Empty {
      PathExtends(tb, s.hash[t], p.k, t);
    }
    PcStep(s, t, Access(s, t).pc[t]);
  }

  /** The id goes in. */
  lemma InsertInv(s: State, t: nat, p: Pc)
    requires Inv(s) && Enabled(s, t) && (s.pc[t].CopyCas? || s.pc[t].Cas?)
    requires var j, k := s.pc[t].main, s.pc[t].k;
             var i := ProbeSlot(Capacity(s.tables[j]), s.hash[t], k);
             && s.tables[j].keys[i] == Empty
             && p == if s.pc[t].Cas? then Store(j, s.pc[t].p, i) else CopyValue(j, s.pc[t].v, i)
    ensures Inv(s.(pc := s.pc[t := p], tables := SetKey(s.tables, s.pc[t].main,
            ProbeSlot(Capacity(s.tables[s.pc[t].main]), s.hash[t], s.pc[t].k), Id(t))))
  {
    hide TicketsOk, GivenOk, ValuesOk, Nowhere, Holds, PathTaken, ProbeSlot, TableOk, Limit, Grew;
    assert ThreadOk(s, t);
    var j, k := s.pc[t].main, s.pc[t].k;
    var i := ProbeSlot(Capacity(s.tables[j]), s.hash[t], k);
    var s' := s.(pc := s.pc[t := p], tables := SetKey(s.tables, j, i, Id(t)));
    forall u | 0 <= u < |s.pc| && u != t ensures Untouched(s, s', u) {
      GrewKey(s.tables, j, i, t, u);
    }
    OthersOk(s, t, s');
    InsertedOk(s.tables[j], s.hash, s.ticket, t, k);
    ValuesKey(s.tables, s.given, s.pc, t, j, i, p);
    assert ThreadOk(s', t);
  }

  lemma CasInv(s: State, t: nat)
    requires Inv(s) && Enabled(s, t) && (s.pc[t].CopyCas? || s.pc[t].Cas?)
    ensures Inv(Access(s, t))
  {
    hide TicketsOk, GivenOk, ValuesOk, Nowhere, Holds, PathTaken, ProbeSlot, TableOk, Limit;
    assert ThreadOk(s, t);
    var p := s.pc[t];
    var tb := s.tables[p.main];
    if tb.keys[ProbeSlot(Capacity(tb), s.hash[t], p.k)] != Empty {
      PathExtends(tb, s.hash[t], p.k, t);
      PcStep(s, t, Access(s, t).pc[t]);
    } else {
      InsertInv(s, t, Access(s, t).pc[t]);
    }
  }

  lemma ValueInv(s: State, t: nat)
    requires Inv(s) && Enabled(s, t) && (s.pc[t].CopyValue? || s.pc[t].Store?)
    ensures Inv(Access(s, t))
  {
    hide TicketsOk, GivenOk, ValuesOk, PathTaken, ProbeSlot, Limit, Grew;
    assert ThreadOk(s, t);
    var s' := Access(s, t);
    var j, i := s.pc[t].main, s.pc[t].i;
    var v := if s.pc[t].Store? then s.pc[t].p else s.pc[t].v;
    forall u | 0 <= u < |s.pc| && u != t ensures Untouched(s, s', u) {
      GrewValue(s.tables, j, i, v, u);
    }
    OthersOk(s, t, s');
    ValuesValue(s.tables, s.given, s.pc, t, j, i, v, Return(v, j));
    ValueTables(s.tables, s.hash, s.ticket, j, i, v);
    assert Holds(s'.tables[j], t);
    assert ThreadOk(s', t);
  }

  lemma ValueTables(tables: seq<Table>, hash: seq<nat>, ticket: seq<nat>, j: nat, i: nat, v: nat)
    requires |hash| == |ticket| && TablesOk(tables, hash, ticket) && j < |tables| && i < |tables[j].values|
    ensures TablesOk(SetValue(tables, j, i, v), hash, ticket)
  {
    hide PathTaken;
    var tables' := SetValue(tables, j, i, v);
    forall j' | 0 <= j' < |tables'| ensures TableOk(tables'[j'], hash, ticket) {
      assert TableOk(tables[j'], hash, ticket);
      forall t | 0 <= t < |hash| ensures OnPath(tables'[j'], hash[t], t) {
        assert OnPath(tables[j'], hash[t], t);
        SameKeysPath(tables[j'], tables'[j'], hash[t]);
      }
    }
  }

  lemma SameKeysPath(tb: Table, tb': Table, h: nat)
    requires tb'.keys == tb.keys
    ensures forall d: nat :: PathTaken(tb, h, d) <==> PathTaken(tb', h, d)
  {
  }

  /** The thread takes a ticket no one has. */
  lemma CountInv(s: State, t: nat)
    requires Inv(s) && Enabled(s, t) && s.pc[t].Count?
    ensures Inv(Access(s, t))
  {
    hide GivenOk, ValuesOk, PathTaken, ProbeSlot, Limit, Grew;
    assert ThreadOk(s, t);
    var s' := Access(s, t);
    forall u | 0 <= u < |s.pc| && u != t ensures Untouched(s, s', u) {
      GrewSame(s.tables, u);
    }
    OthersOk(s, t, s');
    ValuesPc(s.tables, s.given, s.pc, t, s'.pc[t]);
    TicketTables(s.tables, s.hash, s.ticket, t, s.count + 1);
    assert ThreadOk(s', t);
  }

  lemma TicketTables(tables: seq<Table>, hash: seq<nat>, ticket: seq<nat>, t: nat, nc: nat)
    requires |hash| == |ticket| && TablesOk(tables, hash, ticket) && t < |ticket| && Nowhere(tables, t)
    ensures TablesOk(tables, hash, ticket[t := nc])
  {
    hide OnPath, Limit;
    forall j | 0 <= j < |tables| ensures TableOk(tables[j], hash, ticket[t := nc]) {
      assert TableOk(tables[j], hash, ticket) && !Holds(tables[j], t);
    }
  }

  lemma TryInv(s: State, t: nat)
    requires Inv(s) && Enabled(s, t) && s.pc[t].Try?
    ensures Inv(Access(s, t))
  {
    hide TablesOk, TicketsOk, GivenOk, ValuesOk, Nowhere, Limit;
    assert ThreadOk(s, t);
    var p := s.pc[t];
    if p.nc >= Capacity(s.tables[p.main]) / 2 && !s.locked {
      LockStep(s, t, ReloadLocked(p.nc), true, Some(t));
    } else {
      PcStep(s, t, Fit(p.main, p.nc));
    }
  }

  lemma ReloadLockedInv(s: State, t: nat)
    requires Inv(s) && Enabled(s, t) && s.pc[t].ReloadLocked?
    ensures Inv(Access(s, t))
  {
    hide TablesOk, TicketsOk, GivenOk, ValuesOk, Nowhere;
    assert ThreadOk(s, t);
    PcStep(s, t, Access(s, t).pc[t]);
  }

  lemma UnlockInv(s: State, t: nat)
    requires Inv(s) && Enabled(s, t) && s.pc[t].Unlock?
    ensures Inv(Access(s, t))
  {
    hide TablesOk, TicketsOk, GivenOk, ValuesOk, Nowhere, Limit;
    assert ThreadOk(s, t);
    LockStep(s, t, Fit(s.pc[t].main, s.pc[t].nc), false, None);
  }

  /** A bigger table, empty, is put in front. */
  lemma PublishInv(s: State, t: nat)
    requires Inv(s) && Enabled(s, t) && s.pc[t].Publish?
    ensures Inv(Access(s, t))
  {
    hide TicketsOk, GivenOk, ValuesOk, PathTaken, ProbeSlot, Grew, Holds;
    assert ThreadOk(s, t);
    var s' := Access(s, t);
    var p := s.pc[t];
    assert TableOk(s.tables[p.main], s.hash, s.ticket);
    var c := Enough(2 * Capacity(s.tables[p.main]), p.nc);
    forall u | 0 <= u < |s.pc| ensures Grew(s.tables, s'.tables, u) {
      GrewBlank(s.tables, c, u);
    }
    OthersOk(s, t, s');
    ValuesBlank(s.tables, s.given, s.pc, c);
    ValuesPc(s'.tables, s.given, s.pc, t, s'.pc[t]);
    BlankTables(s.tables, s.hash, s.ticket, c);
    NowhereFrame(s.tables, s'.tables, t);
    assert ThreadOk(s', t);
  }

  lemma BlankTables(tables: seq<Table>, hash: seq<nat>, ticket: seq<nat>, c: nat)
    requires |hash| == |ticket| && TablesOk(tables, hash, ticket) && c >= Capacity(tables[|tables| - 1])
    ensures TablesOk(tables + [Blank(c)], hash, ticket)
  {
    var tables' := tables + [Blank(c)];
    assert TableOk(tables[|tables| - 1], hash, ticket);
    forall j | 0 <= j < |tables'| ensures TableOk(tables'[j], hash, ticket) {
      if j < |tables| {
        assert TableOk(tables[j], hash, ticket);
      }
    }
  }

  /** The thread gets a producer no one has. */
  lemma FitInv(s: State, t: nat)
    requires Inv(s) && Enabled(s, t) && s.pc[t].Fit?
    ensures Inv(Access(s, t))
  {
    hide TicketsOk, ValuesOk, PathTaken, ProbeSlot, Limit, Grew, Holds, TableOk;
    assert ThreadOk(s, t);
    var s' := Access(s, t);
    var p := s.pc[t];
    if p.nc < Limit(Capacity(s.tables[p.main])) {
      forall u | 0 <= u < |s.pc| && u != t ensures Untouched(s, s', u) {
        GrewSame(s.tables, u);
      }
      OthersOk(s, t, s');
      ValuesGiven(s.tables, s.given, s.pc, t, s'.given[t]);
      ValuesPc(s.tables, s'.given, s.pc, t, s'.pc[t]);
      assert TableOk(s.tables[p.main], s.hash, s.ticket);
      ZeroPath(s.tables[p.main], s.hash, s.ticket, s.hash[t], t);
      assert ThreadOk(s', t);
    } else {
      PcStep(s, t, s'.pc[t]);
    }
  }

  lemma StepInv(s: State, t: nat, s': State)
    requires Inv(s) && StepOf(s, t, s')
    ensures Inv(s')
  {
    hide Inv, Access;
    match s.pc[t] {
      case Idle => SimpleInv(s, t);
      case Start => SimpleInv(s, t);
      case Look(_, _, _) => LookInv(s, t);
      case CopyProbe(_, _, _) => ProbeInv(s, t);
      case CopyCas(_, _, _) => CasInv(s, t);
      case CopyValue(_, _, _) => ValueInv(s, t);
      case Count(_) => CountInv(s, t);
      case Try(_, _) => TryInv(s, t);
      case ReloadLocked(_) => ReloadLockedInv(s, t);
      case Publish(_, _) => PublishInv(s, t);
      case Unlock(_, _) => UnlockInv(s, t);
      case Fit(_, _) => FitInv(s, t);
      case Reload(_) => SimpleInv(s, t);
      case Probe(_, _, _) => ProbeInv(s, t);
      case Cas(_, _, _) => CasInv(s, t);
      case Store(_, _, _) => ValueInv(s, t);
      case Return(_, _) => SimpleInv(s, t);
    }
  }

  lemma {:induction false} RunInv(run: seq<State>, i: nat)
    requires Run(run) && i < |run|
    ensures Inv(run[i]) && |run[i].pc| == |run[0].pc|
  {
    hide Inv, StepOf;
    if i == 0 {
      InitInv(run[0]);
    } else {
      RunInv(run, i - 1);
      assert Next(run[i - 1], run[i]);
      var t: nat :| StepOf(run[i - 1], t, run[i]);
      StepInv(run[i - 1], t, run[i]);
      GivenStays(run[i - 1], t, run[i]);
    }
  }

  lemma ReachableInv(s: State)
    requires Reachable(s)
    ensures Inv(s)
  {
    hide Inv;
    var run :| Run(run) && run[|run| - 1] == s;
    RunInv(run, |run| - 1);
  }

  /** A producer once given is never replaced. */
  lemma GivenStays(s: State, t: nat, s': State)
    requires Inv(s) && StepOf(s, t, s')
    ensures |s'.pc| == |s.pc| && |s'.given| == |s.given|
    ensures forall u :: 0 <= u < |s.given| && s.given[u].Some? ==> s'.given[u] == s.given[u]
  {
    hide TablesOk, TicketsOk, GivenOk, ValuesOk, Nowhere, Holds, PathTaken, PathWithout, Limit;
    assert ThreadOk(s, t);
  }

  // ----------------------------------------------------------- main results

  /** A table of capacity c only ever holds ids whose ticket is below three quarters of c. */
  lemma TicketsBelowLimit(s: State, j: nat, i: nat)
    requires Reachable(s) && j < |s.tables| && i < |s.tables[j].keys| && s.tables[j].keys[i].Id?
    ensures s.tables[j].keys[i].id < |s.ticket|
    ensures 1 <= s.ticket[s.tables[j].keys[i].id] < Limit(Capacity(s.tables[j]))
  {
    ReachableInv(s);
    assert TableOk(s.tables[j], s.hash, s.ticket);
  }

  /** Hence every table has a free slot. */
  lemma FreeSlot(s: State, j: nat) returns (i: nat)
    requires Reachable(s) && j < |s.tables|
    ensures i < |s.tables[j].keys| && s.tables[j].keys[i] == Empty
  {
    ReachableInv(s);
    var tb := s.tables[j];
    assert TableOk(tb, s.hash, s.ticket);
    HasFree(tb, s.hash, s.ticket, s.count);
    i :| 0 <= i < |tb.keys| && tb.keys[i] == Empty;
  }

  lemma DistinctWithZero(xs: seq<nat>)
    requires AllDistinct(xs) && 0 !in xs
    ensures AllDistinct(xs + [0])
  {
  }

  lemma HasFree(tb: Table, hash: seq<nat>, ticket: seq<nat>, count: nat)
    requires |hash| == |ticket| && TableOk(tb, hash, ticket) && TicketsOk(ticket, count)
    ensures Empty in tb.keys
  {
    hide OnPath;
    if Empty !in tb.keys {
      assert tb.keys[0].Id?;
      var xs := seq(|tb.keys|, i requires 0 <= i < |tb.keys| => ticket[tb.keys[i].id]);
      forall i, j | 0 <= i < j < |xs| ensures xs[i] != xs[j] {
        assert tb.keys[i] != tb.keys[j];
      }
      DistinctWithZero(xs);
      Pigeonhole(xs + [0], Limit(Capacity(tb)));
      assert false;
    }
  }

  /** The table a thread is probing, and the number of the probe. */
  predicate Probing(p: Pc, j: nat, k: nat) {
    || (p.Look? && p.h == j && p.k == k)
    || (p.CopyProbe? && p.main == j && p.k == k) || (p.CopyCas? && p.main == j && p.k == k)
    || (p.Probe? && p.main == j && p.k == k) || (p.Cas? && p.main == j && p.k == k)
  }

  /** Every probe loop ends: the number of the probe stays below the capacity. */
  lemma ProbesEnd(s: State, t: nat, j: nat, k: nat)
    requires Reachable(s) && t < |s.pc| && Probing(s.pc[t], j, k)
    ensures j < |s.tables| && k < Capacity(s.tables[j])
  {
    hide ProbeSlot, TablesOk, TicketsOk, GivenOk, ValuesOk, Limit, Nowhere, Holds;
    ReachableInv(s);
    assert ThreadOk(s, t);
    var i := FreeSlot(s, j);
    var d := SlotOnto(Capacity(s.tables[j]), s.hash[t], i);
  }

  /** Whatever a call returns is the producer the thread was given first. */
  lemma ReturnsGiven(s: State, t: nat)
    requires Reachable(s) && t < |s.pc| && s.pc[t].Return?
    ensures t < |s.given| && s.given[t] == Some(s.pc[t].v)
  {
    ReachableInv(s);
    assert ThreadOk(s, t);
  }

  lemma {:induction false} GivenInRun(run: seq<State>, i: nat, j: nat, t: nat)
    requires Run(run) && i <= j < |run| && t < |run[i].given| && run[i].given[t].Some?
    ensures t < |run[j].given| && run[j].given[t] == run[i].given[t]
    decreases j - i
  {
    hide Inv, StepOf;
    if i < j {
      GivenInRun(run, i, j - 1, t);
      RunInv(run, j - 1);
      assert Next(run[j - 1], run[j]);
      var u: nat :| StepOf(run[j - 1], u, run[j]);
      GivenStays(run[j - 1], u, run[j]);
    }
  }

  /** Through any number of resizes and copies, a thread's calls all return the same producer. */
  lemma SameProducer(run: seq<State>, i: nat, j: nat, t: nat)
    requires Run(run) && i <= j < |run| && t < |run[i].pc| && t < |run[j].pc|
    requires run[i].pc[t].Return? && run[j].pc[t].Return?
    ensures run[i].pc[t].v == run[j].pc[t].v
  {
    hide TablesOk, TicketsOk, GivenOk, ValuesOk, Limit, Nowhere, Holds, PathTaken, PathWithout;
    RunInv(run, i);
    RunInv(run, j);
    assert ThreadOk(run[i], t) && ThreadOk(run[j], t);
    GivenInRun(run, i, j, t);
  }

  /** And no two threads ever share one. */
  lemma OwnProducer(run: seq<State>, i: nat, j: nat, t: nat, u: nat)
    requires Run(run) && i <= j < |run| && t < |run[i].pc| && u < |run[j].pc| && t != u
    requires run[i].pc[t].Return? && run[j].pc[u].Return?
    ensures run[i].pc[t].v != run[j].pc[u].v
  {
    hide TablesOk, TicketsOk, ValuesOk, Limit, Nowhere, Holds, PathTaken, PathWithout;
    RunInv(run, i);
    RunInv(run, j);
    assert ThreadOk(run[i], t) && ThreadOk(run[j], u);
    GivenInRun(run, i, j, t);
  }

  /** One resize at a time; and the thread that holds the flag has the newest table at hand when it
      publishes one at least twice as big, in which its own id then fits at once. */
  lemma OneResize(s: State, t: nat, u: nat)
    requires Reachable(s) && t < |s.pc| && u < |s.pc| && HasLock(s.pc[t]) && HasLock(s.pc[u])
    ensures t == u && s.locked
    ensures s.pc[t].Publish? ==> s.pc[t].main == |s.tables| - 1
    ensures s.pc[t].Unlock? ==> s.pc[t].main < |s.tables| && s.pc[t].nc < Limit(Capacity(s.tables[s.pc[t].main]))
  {
    hide TablesOk, TicketsOk, ValuesOk, Limit, Nowhere, Holds, PathTaken, PathWithout;
    ReachableInv(s);
    assert ThreadOk(s, t) && ThreadOk(s, u);
  }

  /** A call by a thread that was there before finds its id: it never gets as far as a new ticket. */
  lemma TicketOnce(s: State, t: nat)
    requires Reachable(s) && t < |s.pc| && s.pc[t].Count?
    ensures t < |s.ticket| && t < |s.given| && s.ticket[t] == 0 && s.given[t] == None
  {
    hide TablesOk, TicketsOk, ValuesOk, Limit, Nowhere, Holds, PathTaken, PathWithout;
    ReachableInv(s);
    assert ThreadOk(s, t);
  }

  /** A call ends only by returning the thread's producer, with its id in the table that was the main
      one when the call looked: found there, or copied there, or put there. */
  lemma EndsWithProducer(s: State, t: nat, s': State)
    requires Reachable(s) && StepOf(s, t, s') && s'.pc[t].Idle?
    ensures s.pc[t].Return? && t < |s.given| && s.given[t] == Some(s.pc[t].v)
    ensures s.pc[t].main < |s.tables| && Id(t) in s.tables[s.pc[t].main].keys
  {
    hide TablesOk, TicketsOk, GivenOk, ValuesOk, Limit, Nowhere, PathTaken, PathWithout;
    ReachableInv(s);
    assert ThreadOk(s, t);
  }

  lemma Quarters(capacity: nat)
    ensures capacity / 2 <= Limit(capacity)
  {
  }

  /** A thread that has a ticket looks on without resizing only if the table has room for it or somebody
      else is resizing; so that it tries again only in the second case. */
  lemma ResizesWhenFull(s: State, t: nat, s': State)
    requires Reachable(s) && StepOf(s, t, s') && s.pc[t].Try?
    ensures s.pc[t].main < |s.tables|
    ensures var capacity := Capacity(s.tables[s.pc[t].main]);
            && s'.pc[t] == (if s.pc[t].nc >= capacity / 2 && !s.locked then ReloadLocked(s.pc[t].nc)
                            else Fit(s.pc[t].main, s.pc[t].nc))
            && (s'.pc[t].Fit? ==> s.pc[t].nc < Limit(capacity) || s.locked)
  {
    hide TablesOk, TicketsOk, GivenOk, ValuesOk, Limit, Nowhere, PathTaken, PathWithout;
    Quarters(Capacity(s.tables[s.pc[t].main]));
  }

  /** A resize ends: each of its steps leads on to the one that clears the flag, and publishes a bigger
      table if one is needed still. */
  lemma ResizeGoesOn(s: State, t: nat, s': State)
    requires Reachable(s) && StepOf(s, t, s') && HasLock(s.pc[t])
    ensures s.pc[t].ReloadLocked? ==>
              && |s.tables| > 0
              && (s'.pc[t].Publish? <==> s.pc[t].nc >= Capacity(s.tables[|s.tables| - 1]) / 2)
              && (s'.pc[t].Publish? || s'.pc[t].Unlock?)
    ensures s.pc[t].Publish? ==>
              && s'.pc[t] == Unlock(|s.tables|, s.pc[t].nc) && |s'.tables| == |s.tables| + 1
              && s.pc[t].nc < Capacity(s'.tables[|s'.tables| - 1]) / 2
    ensures s.pc[t].Unlock? ==> !HasLock(s'.pc[t]) && !s'.locked
  {
    hide Reachable, Limit;
  }

  /** The flag is set only while some thread is in a resize, and that thread clears it. */
  lemma LockedByResizer(s: State, t: nat)
    requires Reachable(s) && t < |s.pc| && s.owner == Some(t)
    ensures s.locked && HasLock(s.pc[t])
  {
    hide TablesOk, TicketsOk, GivenOk, ValuesOk, Limit, Nowhere, PathTaken, PathWithout;
    ReachableInv(s);
    assert ThreadOk(s, t);
  }
}
