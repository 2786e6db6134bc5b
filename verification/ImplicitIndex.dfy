/** An implicit producer's blocks.  Its index is an array of pointers to entries, and doubling it makes
    a new array that shares the old entries; a block counts the elements consumed, and the consumer
    that completes the count takes the block out of its entry and returns it to the pool.

    One producer enqueues, singly or in bulk; any number of consumers each process the ranges of
    indices the ticket protocol hands them.  Each step is one access to shared memory; getting a
    block from the pool and resetting its counter, which nobody else sees, belong to the step that
    publishes it.  The fields after `consumers`, `num` in an entry and the last two of a header are
    history, read by no step. */
module ImplicitIndex {
  import opened Blocks
  import opened Words

  type Value = int

  const INVALID_BLOCK_BASE := 1

  datatype Entry = Entry(key: int, value: int, num: int)     // value -1 for null

  /** Block number k has slot k - origin; newest is the number at the tail. */
  datatype Header = Header(capacity: nat, tail: nat, index: seq<nat>, origin: int, newest: int)

  /** The locals of one enqueue: startBlock, firstAllocatedBlock and endBlock, -1 for null. */
  datatype Job = Job(items: seq<Value>, start: int, first: int, end: int)

  datatype Producer =
    | Rest
    | Place(job: Job, need: nat)        // insert_block_index_entry: is the next entry free?
    | StoreKey(job: Job, need: nat)     //   store its key
    | StoreTail(job: Job, need: nat)    //   store the tail of the index
    | StoreValue(job: Job, need: nat)   // store the block in the entry
    | Write(job: Job, n: nat)           // construct element n
    | ShowTail(job: Job)                // publish tailIndex

  datatype Consumer =
    | Away
    | LoadHeader(i: nat, end: nat)
    | LoadTail(i: nat, end: nat, h: nat)
    | LoadKey(i: nat, end: nat, h: nat, t: nat)
    | LoadValue(i: nat, end: nat, h: nat, slot: nat)
    | Read(from: nat, i: nat, end: nat, h: nat, slot: nat, e: nat, block: nat)
    | AddCount(from: nat, to: nat, end: nat, h: nat, slot: nat, e: nat, block: nat)
    | StoreNull(k: nat, to: nat, end: nat, h: nat, slot: nat, e: nat, block: nat)
    | FreeBlock(k: nat, to: nat, end: nat, h: nat, slot: nat, block: nat)

  /** The life of a block number, as far as consumers are concerned. */
  datatype Life = Open | Closing(t: nat) | Nulled(t: nat) | Returned

  datatype State = State(
    b: nat,                          // BLOCK_SIZE
    tail: nat, head: nat,
    entries: seq<Entry>, headers: seq<Header>,
    cells: seq<seq<Value>>, counter: seq<nat>, next: seq<int>, pool: set<nat>, tailBlock: int,
    producer: Producer, consumers: seq<Consumer>,
    values: seq<Value>,              // every element, in the order written
    order: seq<nat>,                 // the block of block number k
    entryOf: seq<nat>,               // its entry
    life: seq<Life>,
    claims: seq<nat>,                // the consumer of each claimed index
    got: map<nat, Value>,            // what it read there
    done: set<nat>,                  // indices counted as consumed
    accepted: seq<Value>)            // the items of all enqueue calls begun, in order

  const InitialSize := 32

  const Blank := Entry(INVALID_BLOCK_BASE, -1, -1)

  function Numbers(from: nat, n: nat): (r: seq<nat>)
    ensures |r| == n && forall j :: 0 <= j < n ==> r[j] == from + j
  {
    seq(n, j requires 0 <= j < n => from + j)
  }

  function Repeat<T>(n: nat, x: T): seq<T> {
    seq(n, _ => x)
  }

  ghost predicate Init(s: State) {
    && s.b > 0 && s.b % 2 == 0
    && s.tail == s.head == 0 && s.tailBlock == -1
    && s.entries == Repeat(InitialSize, Blank)
    && s.headers == [Header(InitialSize, InitialSize - 1, Numbers(0, InitialSize), 0, -1)]
    && |s.counter| == |s.cells| == |s.next| && (forall c :: c in s.pool ==> c < |s.cells|)
       && (forall c :: 0 <= c < |s.cells| ==> |s.cells[c]| == s.b)
    && s.producer == Rest && (forall t :: 0 <= t < |s.consumers| ==> s.consumers[t] == Away)
    && s.values == [] && s.order == [] && s.entryOf == [] && s.life == [] && s.claims == [] && s.got == map[]
       && s.done == {} && s.accepted == []
  }

  predicate Valid(e: Entry) {
    e.key != INVALID_BLOCK_BASE
  }

  // ------------------------------------------------------------ the producer

  function Last(s: State): Header
    requires |s.headers| > 0
  {
    s.headers[|s.headers| - 1]
  }

  function NextTail(h: Header): nat
    requires h.capacity > 0
  {
    Slot(h.tail + 1, h.capacity)
  }

  /** The pointers a producer step follows lead somewhere. */
  predicate Sane(s: State) {
    && s.b > 0 && |s.headers| > 0 && Last(s).capacity > 0 && |Last(s).index| == Last(s).capacity
    && (forall j :: 0 <= j < |Last(s).index| ==> Last(s).index[j] < |s.entries|)
  }

  function NextEntry(s: State): (e: nat)
    requires Sane(s)
    ensures e < |s.entries|
  {
    Last(s).index[NextTail(Last(s))]
  }

  /** new_block_index: the old entries, oldest first, then as many blank ones. */
  function Doubled(h: Header, first: nat): Header
    requires h.capacity > 0 && |h.index| == h.capacity
  {
    Header(2 * h.capacity, h.capacity - 1,
           seq(h.capacity, i requires 0 <= i < h.capacity => h.index[Slot(h.tail + 1 + i, h.capacity)])
             + Numbers(first, h.capacity),
           h.newest - h.capacity + 1, h.newest)
  }

  ghost predicate BeginEnqueue(s: State, items: seq<Value>, s': State)
    requires Sane(s)
  {
    && s.producer == Rest && Used(s.tail + |items|, s.b) >= Used(s.tail, s.b)
    && s' == s.(
      accepted := s.accepted + items,
      producer := Place(Job(items, s.tailBlock, -1, s.tailBlock), Used(s.tail + |items|, s.b) - Used(s.tail, s.b)))
  }

  /** The old tail block is linked to the new one only if this call began inside it or allocated it:
      otherwise it may not be the producer's any more. */
  predicate Linking(s: State, job: Job)
    requires s.b > 0
  {
    Off(s.tail, s.b) != 0 || job.first >= 0
  }

  function Linked(s: State, job: Job, block: nat, after: int): seq<int>
    requires s.b > 0 && block <= |s.next| && (Linking(s, job) ==> 0 <= s.tailBlock < |s.next|)
  {
    var next := if block == |s.next| then s.next + [after] else s.next[block := after];
    if Linking(s, job) then next[s.tailBlock := block] else next
  }

  function Extended(job: Job, block: nat): Job {
    job.(first := if job.first < 0 then block else job.first, end := block)
  }

  /** requisition_block gives any block of the pool, or a new one.  Its next pointer is set to null,
      or left as it was by an enqueue of one element. */
  ghost predicate Publishes(s: State, job: Job, need: nat, block: nat, after: int, s': State)
    requires Sane(s)
  {
    && need > 0 && |s.entryOf| > 0 && s.entryOf[|s.entryOf| - 1] < |s.entries|
    && |s.counter| == |s.cells| == |s.next| && (after == -1 || |job.items| == 1)
    && (Linking(s, job) ==> 0 <= s.tailBlock < |s.next|)
    && var e := s.entryOf[|s.entryOf| - 1];
       var new' := block == |s.cells|;
      && ((block in s.pool && block < |s.cells|) || new')
      && (new' ==> |s'.cells| == |s.cells| + 1 && |s'.cells[block]| == s.b)
      && s' == s.(
        cells := if new' then s.cells + [s'.cells[block]] else s.cells,
        counter := if new' then s.counter + [0] else s.counter[block := 0],
        next := Linked(s, job, block, after),
        pool := s.pool - {block}, tailBlock := block,
        entries := s.entries[e := s.entries[e].(value := block)],
        order := s.order + [block], life := s.life + [Open],
        producer := Place(Extended(job, block), need - 1))
  }

  /** The inner loop of the bulk enqueue stops after element n: at the end of a block or of the items. */
  predicate Stops(s: State, job: Job, n: nat)
    requires s.b > 0
  {
    n + 1 == |job.items| || Off(s.tail + n + 1, s.b) == 0
  }

  ghost predicate ProducerStep(s: State, s': State)
    requires Sane(s)
  {
    match s.producer
    case Rest => exists items: seq<Value> :: BeginEnqueue(s, items, s')
    case Place(job, need) =>
      if need == 0 && job.items == [] then s' == s.(producer := ShowTail(job))
      else if need == 0
      then s' == s.(producer := Write(job, 0),
                    tailBlock := if Off(s.tail, s.b) == 0 && job.first >= 0 then job.first else job.start)
      else
        var e := s.entries[NextEntry(s)];
        if !Valid(e) || e.value < 0
        then s' == s.(producer := StoreKey(job, need))
        else s' == s.(
          entries := s.entries + Repeat(Last(s).capacity, Blank),
          headers := s.headers + [Doubled(Last(s), |s.entries|)],
          producer := StoreKey(job, need))
    case StoreKey(job, need) =>
      var e, k := NextEntry(s), Used(s.tail + |job.items|, s.b) - need;
      s' == s.(
        entries := s.entries[e := s.entries[e].(key := Base(k, s.b), num := |s.entryOf|)],
        entryOf := s.entryOf + [e],
        producer := StoreTail(job, need))
    case StoreTail(job, need) =>
      s' == s.(
        headers := s.headers[|s.headers| - 1 := Last(s).(tail := NextTail(Last(s)), newest := Last(s).newest + 1)],
        producer := StoreValue(job, need))
    case StoreValue(job, need) => exists block: nat, after: int :: Publishes(s, job, need, block, after, s')
    case Write(job, n) =>
      && n < |job.items|
      && 0 <= s.tailBlock < |s.cells| == |s.next| && |s.cells[s.tailBlock]| == s.b
      && var stops := Stops(s, job, n);
        s' == s.(
          cells := s.cells[s.tailBlock := s.cells[s.tailBlock][Off(s.tail + n, s.b) := job.items[n]]],
          values := s.values + [job.items[n]],
          tailBlock := if stops && s.tailBlock != job.end then s.next[s.tailBlock] else s.tailBlock,
          producer := if stops && s.tailBlock == job.end then ShowTail(job) else Write(job, n + 1))
    case ShowTail(job) =>
      s' == s.(tail := s.tail + |job.items|, producer := Rest)
  }

  // ----------------------------------------------------------- the consumers

  function Goes(s: State, t: nat, p: Consumer): State
    requires t < |s.consumers|
  {
    s.(consumers := s.consumers[t := p])
  }

  /** The ticket protocol hands a consumer the next n published indices. */
  ghost predicate Claims(s: State, t: nat, n: nat, s': State)
    requires t < |s.consumers|
  {
    && s.consumers[t] == Away && n > 0 && s.head + n <= s.tail
    && s' == Goes(s, t, LoadHeader(s.head, s.head + n)).(head := s.head + n, claims := s.claims + Repeat(n, t))
  }

  /** On to the next block of the range, in the same index array. */
  function Onward(to: nat, end: nat, h: nat, slot: nat, capacity: nat): Consumer
    requires capacity > 0
  {
    if to == end then Away else LoadValue(to, end, h, Slot(slot + 1, capacity))
  }

  function Range(lo: nat, hi: nat): (r: set<nat>)
    ensures forall i :: i in r <==> lo <= i < hi
    ensures lo <= hi ==> |r| == hi - lo
    decreases hi
  {
    if lo >= hi then {} else Range(lo, hi - 1) + {hi - 1}
  }

  ghost predicate ConsumerStep(s: State, t: nat, s': State)
    requires s.b > 0 && t < |s.consumers|
  {
    match s.consumers[t]
    case Away => exists n: nat :: Claims(s, t, n, s')
    case LoadHeader(i, end) => |s.headers| > 0 && s' == Goes(s, t, LoadTail(i, end, |s.headers| - 1))
    case LoadTail(i, end, h) =>
      h < |s.headers| && s' == Goes(s, t, LoadKey(i, end, h, s.headers[h].tail))
    case LoadKey(i, end, h, f) =>
      && h < |s.headers| && s.headers[h].capacity > 0 && f < |s.headers[h].index| && s.headers[h].index[f] < |s.entries|
      && var key := s.entries[s.headers[h].index[f]].key;
        s' == Goes(s, t, LoadValue(i, end, h, SlotFrom(f, Word(i - Off(i, s.b)), key, s.b, s.headers[h].capacity)))
    case LoadValue(i, end, h, slot) =>
      && h < |s.headers| && slot < |s.headers[h].index| && s.headers[h].index[slot] < |s.entries|
      && var e := s.headers[h].index[slot];
        && s.entries[e].value >= 0
        && s' == Goes(s, t, Read(i, i, end, h, slot, e, s.entries[e].value))
    case Read(from, i, end, h, slot, e, block) =>
      && block < |s.cells| && |s.cells[block]| == s.b
      && s' == Goes(s, t, if i + 1 == end || Off(i + 1, s.b) == 0
                          then AddCount(from, i + 1, end, h, slot, e, block)
                          else Read(from, i + 1, end, h, slot, e, block)).(
        got := s.got[i := s.cells[block][Off(i, s.b)]])
    case AddCount(from, to, end, h, slot, e, block) =>
      && block < |s.counter| && from < to && h < |s.headers| && s.headers[h].capacity > 0
      && var k := Blk(from, s.b);
        && 0 <= k < |s.life|
        && var full := s.counter[block] + (to - from) == s.b;
          s' == Goes(s, t, if full then StoreNull(k, to, end, h, slot, e, block)
            else Onward(to, end, h, slot, s.headers[h].capacity)).(
            counter := s.counter[block := s.counter[block] + (to - from)],
            done := s.done + Range(from, to),
            life := if full then s.life[k := Closing(t)] else s.life)
    case StoreNull(k, to, end, h, slot, e, block) =>
      && e < |s.entries| && k < |s.life|
      && s' == Goes(s, t, FreeBlock(k, to, end, h, slot, block)).(
        entries := s.entries[e := s.entries[e].(value := -1)], life := s.life[k := Nulled(t)])
    case FreeBlock(k, to, end, h, slot, block) =>
      && h < |s.headers| && s.headers[h].capacity > 0 && k < |s.life|
      && s' == Goes(s, t, Onward(to, end, h, slot, s.headers[h].capacity)).(
        pool := s.pool + {block}, life := s.life[k := Returned])
  }

  ghost predicate Next(s: State, s': State) {
    && Sane(s)
    && (ProducerStep(s, s') || exists t: nat :: t < |s.consumers| && ConsumerStep(s, t, s'))
  }

  /** The capacity of every index divides the number of blocks in a full turn of the index type. */
  ghost predicate Fits(s: State) {
    s.b > 0 && forall h :: 0 <= h < |s.headers| ==> FitsTurn(s.b, s.headers[h].capacity)
  }

  ghost predicate Run(run: seq<State>) {
    && |run| > 0 && Init(run[0])
    && (forall i :: 0 <= i < |run| ==> Fits(run[i]))
    && (forall i :: 0 <= i < |run| - 1 ==> Next(run[i], run[i + 1]))
  }

  ghost predicate Reachable(s: State) {
    exists run: seq<State> :: Run(run) && run[|run| - 1] == s
  }

  // -------------------------------------------------------------- invariant

  predicate Live(l: Life) {
    l.Open? || l.Closing?
  }

  ghost predicate EntryOk(b: nat, e: Entry, id: nat, entryOf: seq<nat>, order: seq<nat>, life: seq<Life>) {
    Valid(e) ==>
      && 0 <= e.num < |entryOf| && entryOf[e.num] == id && e.key == Base(e.num, b)
      && (e.value >= 0 && e.num < |order| ==> e.num < |life| && Live(life[e.num]))
  }

  /** A live block number has its entry, which says so. */
  ghost predicate Placed(b: nat, entries: seq<Entry>, entryOf: seq<nat>, order: seq<nat>, k: nat) {
    k < |entryOf| && k < |order| && entryOf[k] < |entries| && entries[entryOf[k]] == Entry(Base(k, b), order[k], k)
  }

  ghost predicate EntriesOk(b: nat, entries: seq<Entry>, entryOf: seq<nat>, order: seq<nat>, life: seq<Life>) {
    && |life| == |order| <= |entryOf|
    && (forall e :: 0 <= e < |entries| ==> EntryOk(b, entries[e], e, entryOf, order, life))
    && (forall k :: 0 <= k < |order| && Live(life[k]) ==> Placed(b, entries, entryOf, order, k))
  }

  ghost predicate SlotHolds(h: Header, entries: seq<Entry>, j: nat) {
    && j < |h.index| && h.index[j] < |entries| && h.capacity > 0
    && (Valid(entries[h.index[j]]) ==> Slot(entries[h.index[j]].num - h.origin, h.capacity) == j)
  }

  ghost predicate FindsBlock(h: Header, entryOf: seq<nat>, k: nat) {
    && h.capacity > 0 && |h.index| == h.capacity && k < |entryOf|
    && h.index[Slot(k - h.origin, h.capacity)] == entryOf[k]
  }

  ghost predicate HeaderOk(h: Header, entries: seq<Entry>, entryOf: seq<nat>, life: seq<Life>) {
    && h.capacity > 0 && |h.index| == h.capacity && h.tail == Slot(h.newest - h.origin, h.capacity)
    && -1 <= h.newest < |entryOf|
    && (forall j :: 0 <= j < h.capacity ==> SlotHolds(h, entries, j))
    && (forall k :: 0 <= k < |life| && k <= h.newest && Live(life[k]) ==> FindsBlock(h, entryOf, k))
    && (h.newest >= 0 ==> h.index[h.tail] < |entries| && Valid(entries[h.index[h.tail]]))
  }

  ghost predicate HeadersOk(headers: seq<Header>, entries: seq<Entry>, entryOf: seq<nat>, life: seq<Life>) {
    forall h :: 0 <= h < |headers| ==> HeaderOk(headers[h], entries, entryOf, life)
  }

  /** In the current index, the last `capacity` block numbers placed in it still have their entries. */
  ghost predicate LastOk(h: Header, entries: seq<Entry>, placed: int) {
    && h.capacity > 0 && |h.index| == h.capacity && h.origin <= placed
    && (forall j :: 0 <= j < h.capacity ==> h.index[j] < |entries|)
    && (forall i, j :: 0 <= i < j < h.capacity ==> h.index[i] != h.index[j])
    && (forall j :: 0 <= j < h.capacity ==> Recent(h, entries, placed, j))
    && (forall k :: h.origin <= k < placed && placed - h.capacity <= k ==> Kept(h, entries, k))
  }

  ghost predicate Recent(h: Header, entries: seq<Entry>, placed: int, j: nat)
    requires j < |h.index| && h.index[j] < |entries|
  {
    var e := entries[h.index[j]];
    Valid(e) ==> h.origin <= e.num < placed && placed - h.capacity <= e.num
  }

  ghost predicate Kept(h: Header, entries: seq<Entry>, k: int) {
    && h.capacity > 0 && |h.index| == h.capacity
    && var j := Slot(k - h.origin, h.capacity);
      h.index[j] < |entries| && Valid(entries[h.index[j]]) && entries[h.index[j]].num == k
  }

  /** An index that has been replaced: all its entries are in use, and the current capacity is a
      multiple of its own. */
  ghost predicate OldOk(h: Header, entries: seq<Entry>, capacity: nat, placed: int) {
    && h.capacity > 0 && capacity % h.capacity == 0 && h.newest < placed
    && forall j :: 0 <= j < |h.index| ==> h.index[j] < |entries| && Valid(entries[h.index[j]])
  }

  ghost predicate OldsOk(headers: seq<Header>, entries: seq<Entry>, placed: int) {
    |headers| > 0 && forall h :: 0 <= h < |headers| - 1 ==>
      OldOk(headers[h], entries, headers[|headers| - 1].capacity, placed)
  }

  /** How many indices of block k have been counted. */
  ghost function Count(done: set<nat>, k: int, b: nat): nat
    requires b > 0
  {
    |Counted(done, k, b)|
  }

  ghost function Counted(done: set<nat>, k: int, b: nat): set<nat>
    requires b > 0
  {
    set i | i in done && Blk(i, b) == k
  }

  ghost predicate BlockOk(b: nat, order: seq<nat>, life: seq<Life>, counter: seq<nat>, pool: set<nat>, done: set<nat>,
      k: nat)
    requires b > 0 && k < |order| == |life|
  {
    && order[k] < |counter|
    && (life[k] != Returned ==> order[k] !in pool && forall j :: 0 <= j < k && life[j] != Returned ==>
       order[j] != order[k])
    && (Live(life[k]) ==> counter[order[k]] == Count(done, k, b))
    && (life[k] == Open <==> Count(done, k, b) < b)
  }

  ghost predicate BlocksOk(b: nat, order: seq<nat>, life: seq<Life>, counter: seq<nat>, pool: set<nat>, done: set<nat>)
    requires b > 0
  {
    && |order| == |life|
    && (forall c :: c in pool ==> c < |counter|)
    && (forall k :: 0 <= k < |order| ==> BlockOk(b, order, life, counter, pool, done, k))
  }

  ghost predicate Sized(b: nat, cells: seq<seq<Value>>) {
    forall c :: 0 <= c < |cells| ==> |cells[c]| == b
  }

  /** An element not yet consumed is where it was written. */
  ghost predicate CellOk(b: nat, cells: seq<seq<Value>>, order: seq<nat>, values: seq<Value>, i: nat)
    requires b > 0 && i < |values|
  {
    && 0 <= Blk(i, b) < |order| && order[Blk(i, b)] < |cells| && |cells[order[Blk(i, b)]]| == b
    && cells[order[Blk(i, b)]][Off(i, b)] == values[i]
  }

  ghost predicate CellsOk(b: nat, cells: seq<seq<Value>>, order: seq<nat>, values: seq<Value>, done: set<nat>)
    requires b > 0
  {
    forall i: nat :: i < |values| && i !in done ==> CellOk(b, cells, order, values, i)
  }

  ghost predicate DoneOk(done: set<nat>, got: map<nat, Value>, values: seq<Value>, head: nat) {
    && (forall i :: i in done ==> i < head && i in got)
    && (forall i :: i in got ==> i < |values| && got[i] == values[i])
  }

  ghost predicate CountsOk(s: State) {
    |s.claims| == s.head && s.head <= s.tail <= |s.values|
  }

  /** From block number `from` on, the next pointers follow the order. */
  ghost predicate Chained(next: seq<int>, order: seq<nat>, from: int) {
    forall k :: 0 <= k && from <= k < |order| - 1 ==> order[k] < |next| && next[order[k]] == order[k + 1]
  }

  /** The blocks of the job so far; n0 were in use when it began, and `from` is the number of the block
      that its first element goes to. */
  ghost predicate JobOn(job: Job, n0: int, order: seq<nat>, next: seq<int>, from: int) {
    && 0 <= n0 <= |order|
    && (n0 > 0 ==> job.start == order[n0 - 1])
    && (job.first < 0 <==> |order| == n0) && (job.first >= 0 ==> job.first == order[n0])
    && (job.end < 0 <==> |order| == 0) && (|order| > 0 ==> job.end == order[|order| - 1])
    && Chained(next, order, from)
  }

  ghost predicate JobOk(s: State, job: Job, n0: int)
    requires s.b > 0
  {
    JobOn(job, n0, s.order, s.next, Blk(s.tail, s.b))
  }

  /** The walk along the chain has come to the block of element i. */
  ghost predicate AtBlock(s: State, i: nat)
    requires s.b > 0
  {
    0 <= Blk(i, s.b) < |s.order| && s.tailBlock == s.order[Blk(i, s.b)]
  }

  ghost predicate ProducerOk(s: State)
    requires s.b > 0
  {
    var n0 := Used(s.tail, s.b);
    match s.producer
    case Rest => |s.entryOf| == |s.order| == n0 && |s.values| == s.tail
    case Place(job, need) =>
      JobOk(s, job, n0) && |s.values| == s.tail && |s.entryOf| == |s.order|
        && |s.order| + need == Used(s.tail + |job.items|, s.b)
    case StoreKey(job, need) =>
      && JobOk(s, job, n0) && |s.values| == s.tail && |s.entryOf| == |s.order| && need > 0
      && |s.order| + need == Used(s.tail + |job.items|, s.b)
    case StoreTail(job, need) =>
      && JobOk(s, job, n0) && |s.values| == s.tail && |s.entryOf| == |s.order| + 1 && need > 0
      && |s.order| + need == Used(s.tail + |job.items|, s.b)
    case StoreValue(job, need) =>
      && JobOk(s, job, n0) && |s.values| == s.tail && |s.entryOf| == |s.order| + 1 && need > 0
      && |s.order| + need == Used(s.tail + |job.items|, s.b)
    case Write(job, n) =>
      && JobOk(s, job, n0) && |s.entryOf| == |s.order| == Used(s.tail + |job.items|, s.b)
      && n < |job.items| && |s.values| == s.tail + n && s.values[s.tail..] == job.items[..n] && AtBlock(s, s.tail + n)
    case ShowTail(job) =>
      && JobOk(s, job, n0) && |s.entryOf| == |s.order| == Used(s.tail + |job.items|, s.b)
      && |s.values| == s.tail + |job.items| && s.values[s.tail..] == job.items
  }

  ghost predicate TailOk(s: State)
    requires |s.headers| > 0
  {
    && (s.tailBlock < 0 <==> s.order == [])
       && (s.order != [] && !s.producer.Write? ==> s.tailBlock == s.order[|s.order| - 1])
    && Last(s).newest == (if s.producer.StoreTail? then |s.entryOf| - 2 else |s.entryOf| - 1)
  }

  /** The entry StoreKey is about to overwrite is blank or holds no block. */
  ghost predicate FreeNext(s: State)
    requires Sane(s)
  {
    s.producer.StoreKey? ==> var e := s.entries[NextEntry(s)]; !Valid(e) || e.value < 0
  }

  /** Between its key and its value, the newest entry is the one at the tail to be. */
  ghost predicate KeyedLast(s: State)
    requires Sane(s) && Last(s).tail < |Last(s).index|
  {
    s.producer.StoreTail? || s.producer.StoreValue? ==>
      && |s.entryOf| > 0 && s.entryOf[|s.entryOf| - 1] < |s.entries|
      && var e := s.entries[s.entryOf[|s.entryOf| - 1]];
        && e.key == Base(|s.entryOf| - 1, s.b) && e.num == |s.entryOf| - 1
        && Valid(e)
        && s.entryOf[|s.entryOf| - 1] == if s.producer.StoreTail? then NextEntry(s) else Last(s).index[Last(s).tail]
  }

  ghost predicate Core(s: State) {
    && s.b > 0 && s.b % 2 == 0 && Sane(s) && Last(s).tail < |Last(s).index|
    && EntriesOk(s.b, s.entries, s.entryOf, s.order, s.life)
    && HeadersOk(s.headers, s.entries, s.entryOf, s.life)
    && OldsOk(s.headers, s.entries, |s.order|) && LastOk(Last(s), s.entries, |s.entryOf|) && TailOk(s)
    && FreeNext(s) && KeyedLast(s)
    && |s.counter| == |s.cells| == |s.next| && BlocksOk(s.b, s.order, s.life, s.counter, s.pool, s.done)
    && Sized(s.b, s.cells) && CellsOk(s.b, s.cells, s.order, s.values, s.done)
    && DoneOk(s.done, s.got, s.values, s.head) && CountsOk(s) && ProducerOk(s)
  }

  /** Indices i to end are consumer t's, and not counted yet. */
  ghost predicate Owns(s: State, t: nat, i: nat, end: nat) {
    && i <= end <= s.head <= |s.claims|
    && forall x :: i <= x < end ==> s.claims[x] == t && x !in s.done
  }

  /** The index array h reaches up to the block of the last index. */
  ghost predicate Reaches(s: State, h: nat, end: nat)
    requires s.b > 0
  {
    h < |s.headers| && Blk(end - 1, s.b) <= s.headers[h].newest
  }

  ghost predicate SlotOk(s: State, h: nat, k: int, slot: int) {
    h < |s.headers| && s.headers[h].capacity > 0 && slot == Slot(k - s.headers[h].origin, s.headers[h].capacity)
  }

  ghost predicate Has(s: State, k: int, e: nat, block: nat) {
    0 <= k < |s.order| && k < |s.entryOf| && block == s.order[k] && e == s.entryOf[k]
  }

  ghost predicate Remains(s: State, t: nat, k: int, to: nat, end: nat, h: nat, slot: nat)
    requires s.b > 0
  {
    && Owns(s, t, to, end) && SlotOk(s, h, k, slot)
    && (to < end ==> Blk(to, s.b) == k + 1 && Reaches(s, h, end))
  }

  ghost predicate ConsumerOk(s: State, t: nat)
    requires s.b > 0 && t < |s.consumers|
  {
    match s.consumers[t]
    case Away => true
    case LoadHeader(i, end) => i < end && Owns(s, t, i, end)
    case LoadTail(i, end, h) => i < end && Owns(s, t, i, end) && Reaches(s, h, end)
    case LoadKey(i, end, h, f) =>
      && i < end && Owns(s, t, i, end) && Reaches(s, h, end)
      && f < |s.headers[h].index| && s.headers[h].index[f] < |s.entries| && Valid(s.entries[s.headers[h].index[f]])
    case LoadValue(i, end, h, slot) =>
      i < end && Owns(s, t, i, end) && Reaches(s, h, end) && SlotOk(s, h, Blk(i, s.b), slot)
    case Read(from, i, end, h, slot, e, block) =>
      && from <= i < end && Owns(s, t, from, end) && Reaches(s, h, end) && SlotOk(s, h, Blk(i, s.b), slot)
      && Blk(from, s.b) == Blk(i, s.b) && Has(s, Blk(i, s.b), e, block)
      && (forall x :: from <= x < i ==> x in s.got)
    case AddCount(from, to, end, h, slot, e, block) =>
      && from < to && Owns(s, t, from, end) && to <= end && Blk(from, s.b) == Blk(to - 1, s.b)
      && Remains(s, t, Blk(from, s.b), to, end, h, slot) && Has(s, Blk(from, s.b), e, block)
      && (forall x :: from <= x < to ==> x in s.got)
    case StoreNull(k, to, end, h, slot, e, block) =>
      Remains(s, t, k, to, end, h, slot) && Has(s, k, e, block) && k < |s.life| && s.life[k] == Closing(t)
    case FreeBlock(k, to, end, h, slot, block) =>
      Remains(s, t, k, to, end, h, slot) && k < |s.order| && block == s.order[k] && k < |s.life|
        && s.life[k] == Nulled(t)
  }

  ghost predicate Inv(s: State) {
    Core(s) && (forall t :: 0 <= t < |s.consumers| ==> ConsumerOk(s, t))
  }

  // ------------------------------------------------------ keys and the count

  /** A block's base is even, so that an odd key never is one. */
  lemma BaseValid(k: int, b: nat)
    requires b % 2 == 0
    ensures Base(k, b) != INVALID_BLOCK_BASE
  {
    var h := b / 2;
    assert b == 2 * h;
    MulAssoc(k, h, 2);
    EvenWord(k * h);
  }

  lemma EvenWord(x: int)
    ensures Word(x * 2) % 2 == 0
  {
  }

  lemma SubsetCount(a: set<nat>, c: set<nat>)
    requires a <= c
    ensures |a| <= |c| && (|a| == |c| ==> a == c)
  {
    assert c == a + (c - a);
  }

  lemma InBlock(i: nat, k: nat, b: nat)
    requires b > 0
    ensures Blk(i, b) == k <==> k * b <= i < k * b + b
  {
    if Blk(i, b) == k {
      assert i == k * b + Off(i, b);
    } else if k * b <= i < k * b + b {
      DivMod(i, b, k, i - k * b);
    }
  }

  /** The count never exceeds the size of a block, and reaches it exactly with its last index. */
  lemma CountFull(done: set<nat>, k: nat, b: nat)
    requires b > 0
    ensures Count(done, k, b) <= b
    ensures Count(done, k, b) == b <==> forall i: nat :: Blk(i, b) == k ==> i in done
  {
    hide Blk;
    var mine := Counted(done, k, b);
    var all := Range(k * b, k * b + b);
    forall i: nat ensures i in all <==> Blk(i, b) == k { InBlock(i, k, b); }
    SubsetCount(mine, all);
    if forall i: nat :: Blk(i, b) == k ==> i in done {
      assert mine == all;
    }
  }

  /** Counting indices of block k that were not counted before. */
  lemma CountAdd(done: set<nat>, from: nat, to: nat, k: int, b: nat)
    requires b > 0 && from <= to && forall i: nat :: from <= i < to ==> Blk(i, b) == k && i !in done
    ensures Count(done + Range(from, to), k, b) == Count(done, k, b) + (to - from)
    ensures forall j: int :: j != k ==> Count(done + Range(from, to), j, b) == Count(done, j, b)
  {
    hide Blk;
    var more := Range(from, to);
    assert Counted(done + more, k, b) == Counted(done, k, b) + more;
    forall j: int | j != k ensures Count(done + more, j, b) == Count(done, j, b) {
      assert Counted(done + more, j, b) == Counted(done, j, b);
    }
  }

  lemma CountNone(done: set<nat>, k: int, b: nat)
    requires b > 0 && forall i :: i in done ==> Blk(i, b) != k
    ensures Count(done, k, b) == 0
  {
    assert Counted(done, k, b) == {};
  }

  // ------------------------------------------------- entries through a step

  lemma EntriesKeyed(b: nat, entries: seq<Entry>, entryOf: seq<nat>, order: seq<nat>, life: seq<Life>, e: nat)
    requires EntriesOk(b, entries, entryOf, order, life) && b % 2 == 0 && |entryOf| == |order| && e < |entries|
    requires !Valid(entries[e]) || entries[e].value < 0
    ensures EntriesOk(b, entries[e := entries[e].(key := Base(|entryOf|, b), num := |entryOf|)], entryOf + [e], order,
            life)
  {
    hide Base;
    var entries', entryOf' := entries[e := entries[e].(key := Base(|entryOf|, b), num := |entryOf|)], entryOf + [e];
    forall x | 0 <= x < |entries'| ensures EntryOk(b, entries'[x], x, entryOf', order, life) {
      assert EntryOk(b, entries[x], x, entryOf, order, life);
    }
    forall k | 0 <= k < |order| && Live(life[k]) ensures Placed(b, entries', entryOf', order, k) {
      assert Placed(b, entries, entryOf, order, k);
      BaseValid(k, b);
    }
  }

  lemma EntriesValued(b: nat, entries: seq<Entry>, entryOf: seq<nat>, order: seq<nat>, life: seq<Life>, e: nat,
      block: nat)
    requires EntriesOk(b, entries, entryOf, order, life) && |entryOf| == |order| + 1
             && e == entryOf[|order|] < |entries|
    requires entries[e].key == Base(|order|, b) && entries[e].num == |order| && Valid(entries[e])
    ensures EntriesOk(b, entries[e := entries[e].(value := block)], entryOf, order + [block], life + [Open])
  {
    hide Base;
    var entries', order', life' := entries[e := entries[e].(value := block)], order + [block], life + [Open];
    forall x | 0 <= x < |entries'| ensures EntryOk(b, entries'[x], x, entryOf, order', life') {
      assert EntryOk(b, entries[x], x, entryOf, order, life);
    }
    forall k | 0 <= k < |order'| && Live(life'[k]) ensures Placed(b, entries', entryOf, order', k) {
      if k < |order| {
        assert Placed(b, entries, entryOf, order, k);
      }
    }
  }

  lemma EntriesNulled(b: nat, entries: seq<Entry>, entryOf: seq<nat>, order: seq<nat>, life: seq<Life>, k: nat, t: nat)
    requires EntriesOk(b, entries, entryOf, order, life) && k < |order| && life[k] == Closing(t)
    ensures k < |entryOf| && entryOf[k] < |entries|
    ensures EntriesOk(b, entries[entryOf[k] := entries[entryOf[k]].(value := -1)], entryOf, order, life[k := Nulled(t)])
  {
    hide Base;
    assert Placed(b, entries, entryOf, order, k);
    var e := entryOf[k];
    var entries', life' := entries[e := entries[e].(value := -1)], life[k := Nulled(t)];
    forall x | 0 <= x < |entries'| ensures EntryOk(b, entries'[x], x, entryOf, order, life') {
      assert EntryOk(b, entries[x], x, entryOf, order, life);
    }
    forall j | 0 <= j < |order| && Live(life'[j]) ensures Placed(b, entries', entryOf, order, j) {
      assert Placed(b, entries, entryOf, order, j);
    }
  }

  /** A change of life that leaves live what was live, and dead what was dead. */
  lemma EntriesAged(b: nat, entries: seq<Entry>, entryOf: seq<nat>, order: seq<nat>, life: seq<Life>, k: nat, l: Life)
    requires EntriesOk(b, entries, entryOf, order, life) && k < |life| && Live(l) == Live(life[k])
    ensures EntriesOk(b, entries, entryOf, order, life[k := l])
  {
    hide Base;
    var life' := life[k := l];
    forall x | 0 <= x < |entries| ensures EntryOk(b, entries[x], x, entryOf, order, life') {
      assert EntryOk(b, entries[x], x, entryOf, order, life);
    }
    forall j | 0 <= j < |order| && Live(life'[j]) ensures Placed(b, entries, entryOf, order, j) {
      assert Live(life[j]);
    }
  }

  lemma EntriesMore(b: nat, entries: seq<Entry>, entryOf: seq<nat>, order: seq<nat>, life: seq<Life>, n: nat)
    requires EntriesOk(b, entries, entryOf, order, life)
    ensures EntriesOk(b, entries + Repeat(n, Blank), entryOf, order, life)
  {
    hide Base;
    var entries' := entries + Repeat(n, Blank);
    forall x | 0 <= x < |entries'| ensures EntryOk(b, entries'[x], x, entryOf, order, life) {
      if x < |entries| {
        assert EntryOk(b, entries[x], x, entryOf, order, life);
      }
    }
    forall j | 0 <= j < |order| && Live(life[j]) ensures Placed(b, entries', entryOf, order, j) {
      assert Placed(b, entries, entryOf, order, j);
    }
  }

  // --------------------------------------------------- the index arrays

  lemma SlotTurns(x: int, c: nat, d: nat)
    requires c > 0 && d % c == 0
    ensures Slot(x + d, c) == Slot(x, c)
  {
    var q := d / c;
    MulDistribute(x / c, -q, c);
    DivMod(x + d, c, x / c + q, x % c);
  }

  /** The slot the producer turns to is that of the next block number. */
  lemma NextSlot(h: Header)
    requires h.capacity > 0 && h.tail == Slot(h.newest - h.origin, h.capacity)
    ensures NextTail(h) == Slot(h.newest + 1 - h.origin, h.capacity)
  {
    SlotShift(h.newest - h.origin, 1, h.capacity);
  }

  /** The entry there, if it was ever used, is that of the block number one turn back. */
  lemma OneTurnBack(h: Header, entries: seq<Entry>, entryOf: seq<nat>, life: seq<Life>)
    requires HeaderOk(h, entries, entryOf, life) && LastOk(h, entries, |entryOf|) && h.newest == |entryOf| - 1
    requires Valid(entries[h.index[NextTail(h)]])
    ensures entries[h.index[NextTail(h)]].num == |entryOf| - h.capacity
  {
    hide Slot;
    var j := NextTail(h);
    NextSlot(h);
    assert SlotHolds(h, entries, j) && Recent(h, entries, |entryOf|, j);
    var n := entries[h.index[j]].num;
    if n > |entryOf| - h.capacity {
      SlotsDistinct(n - h.origin, |entryOf| - h.origin, h.capacity);
    }
  }

  lemma HeaderKeyed(h: Header, entries: seq<Entry>, entryOf: seq<nat>, life: seq<Life>, e: nat, key: int)
    requires HeaderOk(h, entries, entryOf, life) && |life| <= |entryOf| && e < |entries| && key != INVALID_BLOCK_BASE
    requires forall j :: 0 <= j < h.capacity && h.index[j] == e ==> Slot(|entryOf| - h.origin, h.capacity) == j
    ensures HeaderOk(h, entries[e := entries[e].(key := key, num := |entryOf|)], entryOf + [e], life)
  {
    hide Slot;
    var entries' := entries[e := entries[e].(key := key, num := |entryOf|)];
    forall j | 0 <= j < h.capacity ensures SlotHolds(h, entries', j) {
      assert SlotHolds(h, entries, j);
    }
    forall k | 0 <= k < |life| && k <= h.newest && Live(life[k]) ensures FindsBlock(h, entryOf + [e], k) {
      assert FindsBlock(h, entryOf, k);
    }
  }

  /** In an older index the entry comes back to its slot, whose size divides the new one's. */
  lemma OldKeyedSlots(h: Header, last: Header, entries: seq<Entry>, entryOf: seq<nat>, life: seq<Life>, placed: int,
      e: nat)
    requires HeaderOk(h, entries, entryOf, life) && OldOk(h, entries, last.capacity, placed)
    requires e < |entries| && (Valid(entries[e]) ==> entries[e].num == |entryOf| - last.capacity)
    ensures forall j :: 0 <= j < h.capacity && h.index[j] == e ==> Slot(|entryOf| - h.origin, h.capacity) == j
  {
    hide Slot;
    forall j | 0 <= j < h.capacity && h.index[j] == e ensures Slot(|entryOf| - h.origin, h.capacity) == j {
      assert SlotHolds(h, entries, j);
      SlotTurns(|entryOf| - last.capacity - h.origin, h.capacity, last.capacity);
    }
  }

  lemma LastKeyed(h: Header, entries: seq<Entry>, entryOf: seq<nat>, life: seq<Life>, key: int)
    requires HeaderOk(h, entries, entryOf, life) && LastOk(h, entries, |entryOf|) && h.newest == |entryOf| - 1
    requires key != INVALID_BLOCK_BASE
    ensures var e := h.index[NextTail(h)];
            LastOk(h, entries[e := entries[e].(key := key, num := |entryOf|)], |entryOf| + 1)
  {
    hide Slot;
    var n := |entryOf|;
    var e := h.index[NextTail(h)];
    var entries' := entries[e := entries[e].(key := key, num := n)];
    NextSlot(h);
    var placed := n + 1;
    forall j | 0 <= j < h.capacity ensures Recent(h, entries', placed, j) {
      assert Recent(h, entries, n, j) && SlotHolds(h, entries, j);
      if Valid(entries[h.index[j]]) && entries[h.index[j]].num == n - h.capacity {
        SlotTurns(n - h.capacity - h.origin, h.capacity, h.capacity);
      }
    }
    forall k | h.origin <= k < n + 1 && n + 1 - h.capacity <= k ensures Kept(h, entries', k) {
      if k < n {
        assert Kept(h, entries, k);
        SlotsDistinct(k - h.origin, n - h.origin, h.capacity);
      }
    }
  }

  lemma HeaderTail(h: Header, entries: seq<Entry>, entryOf: seq<nat>, life: seq<Life>)
    requires HeaderOk(h, entries, entryOf, life) && h.newest == |entryOf| - 2 && |life| < |entryOf|
    requires h.index[NextTail(h)] < |entries| && Valid(entries[h.index[NextTail(h)]])
    ensures HeaderOk(h.(tail := NextTail(h), newest := h.newest + 1), entries, entryOf, life)
  {
    hide Slot;
    NextSlot(h);
    var h' := h.(tail := NextTail(h), newest := h.newest + 1);
    forall j | 0 <= j < h'.capacity ensures SlotHolds(h', entries, j) {
      assert SlotHolds(h, entries, j);
    }
    forall k | 0 <= k < |life| && k <= h'.newest && Live(life[k]) ensures FindsBlock(h', entryOf, k) {
      assert FindsBlock(h, entryOf, k);
    }
  }

  /** Changes of values, and of lives that do not bring anything back to life. */
  lemma HeaderAged(h: Header, entries: seq<Entry>, entries': seq<Entry>, entryOf: seq<nat>, life: seq<Life>,
      life': seq<Life>)
    requires HeaderOk(h, entries, entryOf, life) && |entries| <= |entries'| && |life'| == |life|
    requires forall e :: 0 <= e < |entries| ==> entries'[e].key == entries[e].key && entries'[e].num == entries[e].num
    requires forall k :: 0 <= k < |life| && Live(life'[k]) ==> Live(life[k])
    ensures HeaderOk(h, entries', entryOf, life')
  {
    hide Slot;
    forall j | 0 <= j < h.capacity ensures SlotHolds(h, entries', j) {
      assert SlotHolds(h, entries, j);
    }
    forall k | 0 <= k < |life'| && k <= h.newest && Live(life'[k]) ensures FindsBlock(h, entryOf, k) {
      assert FindsBlock(h, entryOf, k);
    }
  }

  /** A new block number lives; only the current index reaches it. */
  lemma HeaderOpened(h: Header, entries: seq<Entry>, entries': seq<Entry>, entryOf: seq<nat>, life: seq<Life>)
    requires HeaderOk(h, entries, entryOf, life) && |entries'| == |entries| && |entryOf| == |life| + 1
    requires forall e :: 0 <= e < |entries| ==> entries'[e].key == entries[e].key && entries'[e].num == entries[e].num
    requires h.newest < |life| || h.index[h.tail] == entryOf[|life|]
    ensures HeaderOk(h, entries', entryOf, life + [Open])
  {
    hide Slot;
    forall j | 0 <= j < h.capacity ensures SlotHolds(h, entries', j) {
      assert SlotHolds(h, entries, j);
    }
    var life' := life + [Open];
    forall k | 0 <= k < |life'| && k <= h.newest && Live(life'[k]) ensures FindsBlock(h, entryOf, k) {
      if k < |life| {
        assert FindsBlock(h, entryOf, k);
      }
    }
  }

  // -------------------------------------------------------- a bigger index

  lemma FullIndex(h: Header, entries: seq<Entry>, entryOf: seq<nat>, life: seq<Life>)
    requires HeaderOk(h, entries, entryOf, life) && LastOk(h, entries, |entryOf|) && h.newest == |entryOf| - 1
    requires Valid(entries[h.index[NextTail(h)]])
    ensures h.origin <= |entryOf| - h.capacity
    ensures forall j :: 0 <= j < h.capacity ==> KeptAt(h, entries, |entryOf|, j)
  {
    hide Slot;
    OneTurnBack(h, entries, entryOf, life);
    assert Recent(h, entries, |entryOf|, NextTail(h));
    var n := |entryOf| - h.capacity;
    forall j | 0 <= j < h.capacity ensures KeptAt(h, entries, |entryOf|, j) {
      assert Kept(h, entries, n + j);
      SlotShift(h.newest - h.origin, 1 + j, h.capacity);
      SlotTurns(n + j - h.origin, h.capacity, h.capacity);
    }
  }

  /** The entry j places behind the tail is that of the block number capacity - j before the next. */
  ghost predicate KeptAt(h: Header, entries: seq<Entry>, placed: int, j: nat) {
    && h.capacity > 0 && |h.index| == h.capacity
    && var e := h.index[Slot(h.tail + 1 + j, h.capacity)];
      e < |entries| && Valid(entries[e]) && entries[e].num == placed - h.capacity + j
  }

  lemma AllValid(h: Header, entries: seq<Entry>, placed: int)
    requires h.capacity > 0 && |h.index| == h.capacity && h.tail < h.capacity
    requires forall j :: 0 <= j < h.capacity ==> KeptAt(h, entries, placed, j)
    ensures forall i :: 0 <= i < h.capacity ==> h.index[i] < |entries| && Valid(entries[h.index[i]])
  {
    hide Slot;
    forall i | 0 <= i < h.capacity ensures h.index[i] < |entries| && Valid(entries[h.index[i]]) {
      var j := if i > h.tail then i - h.tail - 1 else i - h.tail - 1 + h.capacity;
      assert KeptAt(h, entries, placed, j);
      if i > h.tail {
        SlotSmall(i, h.capacity);
      } else {
        SlotTurns(i, h.capacity, h.capacity);
        SlotSmall(i, h.capacity);
      }
    }
  }

  lemma DoubledOk(h: Header, entries: seq<Entry>, entryOf: seq<nat>, life: seq<Life>)
    requires HeaderOk(h, entries, entryOf, life) && LastOk(h, entries, |entryOf|) && h.newest == |entryOf| - 1
    requires Valid(entries[h.index[NextTail(h)]]) && |life| <= |entryOf|
    requires forall k :: 0 <= k < |life| && Live(life[k]) ==>
             entryOf[k] < |entries| && Valid(entries[entryOf[k]]) && entries[entryOf[k]].num == k
    requires forall e :: 0 <= e < |entries| && Valid(entries[e]) ==>
             0 <= entries[e].num < |entryOf| && entryOf[entries[e].num] == e
    ensures var entries' := entries + Repeat(h.capacity, Blank);
            HeaderOk(Doubled(h, |entries|), entries', entryOf, life)
              && LastOk(Doubled(h, |entries|), entries', |entryOf|)
  {
    hide Slot, HeaderOk, LastOk;
    HeaderTailBound(h, entries, entryOf, life);
    FullIndex(h, entries, entryOf, life);
    DoubledSlots(h, entries, |entryOf|);
    LiveAtLast(h, entries, entryOf, life);
    assert KeptAt(h, entries, |entryOf|, 0);
    DoubledHeader(h, entries, entryOf, life);
    DoubledLast(h, entries, entryOf, life);
  }

  lemma HeaderTailBound(h: Header, entries: seq<Entry>, entryOf: seq<nat>, life: seq<Life>)
    requires HeaderOk(h, entries, entryOf, life)
    ensures h.capacity > 0 && |h.index| == h.capacity && h.tail < h.capacity
  {
  }

  /** What is in the slots of the bigger index. */
  lemma DoubledSlots(h: Header, entries: seq<Entry>, placed: int)
    requires h.capacity > 0 && |h.index| == h.capacity
    requires forall j :: 0 <= j < h.capacity ==> KeptAt(h, entries, placed, j)
    ensures var index, entries' := Doubled(h, |entries|).index, entries + Repeat(h.capacity, Blank);
            && |index| == 2 * h.capacity
            && (forall j :: 0 <= j < h.capacity ==>
                  index[j] < |entries| && Valid(entries'[index[j]])
                    && entries'[index[j]].num == placed - h.capacity + j)
            && (forall j :: h.capacity <= j < 2 * h.capacity ==>
                  index[j] == |entries| + (j - h.capacity) < |entries'| && !Valid(entries'[index[j]]))
  {
    hide Slot;
    var index := Doubled(h, |entries|).index;
    forall j | 0 <= j < h.capacity
      ensures index[j] < |entries| && Valid(entries[index[j]]) && entries[index[j]].num == placed - h.capacity + j
    {
      assert KeptAt(h, entries, placed, j);
    }
  }

  /** A live block number is one of the last `capacity`. */
  lemma LiveAtLast(h: Header, entries: seq<Entry>, entryOf: seq<nat>, life: seq<Life>)
    requires HeaderOk(h, entries, entryOf, life) && LastOk(h, entries, |entryOf|) && h.newest == |entryOf| - 1
             && |life| <= |entryOf|
    requires forall k :: 0 <= k < |life| && Live(life[k]) ==>
             entryOf[k] < |entries| && Valid(entries[entryOf[k]]) && entries[entryOf[k]].num == k
    ensures forall k :: 0 <= k < |life| && Live(life[k]) ==> |entryOf| - h.capacity <= k
  {
    hide Slot;
    forall k | 0 <= k < |life| && Live(life[k]) ensures |entryOf| - h.capacity <= k {
      assert FindsBlock(h, entryOf, k);
      assert Recent(h, entries, |entryOf|, Slot(k - h.origin, h.capacity));
    }
  }

  lemma DoubledHeader(h: Header, entries: seq<Entry>, entryOf: seq<nat>, life: seq<Life>)
    requires h.capacity > 0 && |h.index| == h.capacity && 0 <= h.newest == |entryOf| - 1 && |life| <= |entryOf|
    requires forall k :: 0 <= k < |life| && Live(life[k]) ==> |entryOf| - h.capacity <= k
    requires forall e :: 0 <= e < |entries| && Valid(entries[e]) ==>
             0 <= entries[e].num < |entryOf| && entryOf[entries[e].num] == e
    requires var index, entries' := Doubled(h, |entries|).index, entries + Repeat(h.capacity, Blank);
            && |index| == 2 * h.capacity
            && (forall j :: 0 <= j < h.capacity ==>
                  index[j] < |entries| && Valid(entries'[index[j]])
                    && entries'[index[j]].num == |entryOf| - h.capacity + j)
            && (forall j :: h.capacity <= j < 2 * h.capacity ==>
                  index[j] == |entries| + (j - h.capacity) < |entries'| && !Valid(entries'[index[j]]))
    ensures HeaderOk(Doubled(h, |entries|), entries + Repeat(h.capacity, Blank), entryOf, life)
  {
    hide Slot, Doubled;
    var d, entries' := Doubled(h, |entries|), entries + Repeat(h.capacity, Blank);
    DoubledFields(h, |entries|);
    SlotSmall(h.capacity - 1, 2 * h.capacity);
    forall j | 0 <= j < d.capacity ensures SlotHolds(d, entries', j) {
      SlotSmall(j, 2 * h.capacity);
    }
    forall k | 0 <= k < |life| && k <= d.newest && Live(life[k]) ensures FindsBlock(d, entryOf, k) {
      var j := k - d.origin;
      SlotSmall(j, 2 * h.capacity);
      assert entries'[d.index[j]].num == k;
    }
  }

  lemma DoubledFields(h: Header, first: nat)
    requires h.capacity > 0 && |h.index| == h.capacity
    ensures var d := Doubled(h, first);
            && d.capacity == 2 * h.capacity == |d.index| && d.tail == h.capacity - 1
            && d.origin == h.newest - h.capacity + 1 && d.newest == h.newest
  {
  }

  lemma DoubledLast(h: Header, entries: seq<Entry>, entryOf: seq<nat>, life: seq<Life>)
    requires h.capacity > 0 && |h.index| == h.capacity && h.newest == |entryOf| - 1
    requires var index, entries' := Doubled(h, |entries|).index, entries + Repeat(h.capacity, Blank);
            && |index| == 2 * h.capacity
            && (forall j :: 0 <= j < h.capacity ==>
                  index[j] < |entries| && Valid(entries'[index[j]])
                    && entries'[index[j]].num == |entryOf| - h.capacity + j)
            && (forall j :: h.capacity <= j < 2 * h.capacity ==>
                  index[j] == |entries| + (j - h.capacity) < |entries'| && !Valid(entries'[index[j]]))
    ensures LastOk(Doubled(h, |entries|), entries + Repeat(h.capacity, Blank), |entryOf|)
  {
    hide Slot, Doubled;
    var d, entries' := Doubled(h, |entries|), entries + Repeat(h.capacity, Blank);
    DoubledFields(h, |entries|);
    forall i, j | 0 <= i < j < d.capacity ensures d.index[i] != d.index[j] {
      assert i < h.capacity ==> entries'[d.index[i]].num == |entryOf| - h.capacity + i;
      assert j < h.capacity ==> entries'[d.index[j]].num == |entryOf| - h.capacity + j;
    }
    forall k | d.origin <= k < |entryOf| && |entryOf| - d.capacity <= k ensures Kept(d, entries', k) {
      SlotSmall(k - d.origin, d.capacity);
    }
  }

  lemma OldsKept(headers: seq<Header>, headers': seq<Header>, entries: seq<Entry>, entries': seq<Entry>, placed: int,
      placed': int)
    requires OldsOk(headers, entries, placed) && |headers'| == |headers| && placed <= placed' && |entries| <= |entries'|
    requires forall h :: 0 <= h < |headers| - 1 ==> headers'[h] == headers[h]
    requires headers'[|headers| - 1].capacity == headers[|headers| - 1].capacity
    requires forall e :: 0 <= e < |entries| && Valid(entries[e]) ==> Valid(entries'[e])
    ensures OldsOk(headers', entries', placed')
  {
    forall h | 0 <= h < |headers'| - 1
      ensures OldOk(headers'[h], entries', headers'[|headers'| - 1].capacity, placed')
    {
      assert OldOk(headers[h], entries, headers[|headers| - 1].capacity, placed);
    }
  }

  lemma OldsDoubled(headers: seq<Header>, entries: seq<Entry>, placed: int, d: Header, n: nat)
    requires OldsOk(headers, entries, placed)
    requires var last := headers[|headers| - 1];
             && last.capacity > 0 && d.capacity == 2 * last.capacity && last.newest < placed
                && |last.index| == last.capacity
             && forall i :: 0 <= i < last.capacity ==> last.index[i] < |entries| && Valid(entries[last.index[i]])
    ensures OldsOk(headers + [d], entries + Repeat(n, Blank), placed)
  {
    var last := headers[|headers| - 1];
    forall h | 0 <= h < |headers| ensures OldOk((headers + [d])[h], entries + Repeat(n, Blank), d.capacity, placed) {
      if h < |headers| - 1 {
        assert OldOk(headers[h], entries, last.capacity, placed);
        SlotTurns(last.capacity, headers[h].capacity, last.capacity);
      } else {
        SlotTurns(0, last.capacity, last.capacity);
        SlotTurns(last.capacity, last.capacity, last.capacity);
      }
    }
  }

  // ------------------------------------------------------ blocks and cells

  /** A block with an index not counted yet is open. */
  lemma IsOpen(b: nat, order: seq<nat>, life: seq<Life>, counter: seq<nat>, pool: set<nat>, done: set<nat>, i: nat)
    requires b > 0 && BlocksOk(b, order, life, counter, pool, done) && i !in done && 0 <= Blk(i, b) < |order|
    ensures life[Blk(i, b)] == Open
  {
    hide Blk, Count;
    var k := Blk(i, b);
    assert BlockOk(b, order, life, counter, pool, done, k);
    CountFull(done, k, b);
  }

  lemma BlocksOpened(b: nat, order: seq<nat>, life: seq<Life>, counter: seq<nat>, pool: set<nat>, done: set<nat>,
      block: nat)
    requires b > 0 && BlocksOk(b, order, life, counter, pool, done) && (block in pool || block == |counter|)
    requires Count(done, |order|, b) == 0
    ensures BlocksOk(b, order + [block], life + [Open],
                     if block == |counter| then counter + [0] else counter[block := 0], pool - {block}, done)
  {
    hide Count;
    var order', life' := order + [block], life + [Open];
    var counter' := if block == |counter| then counter + [0] else counter[block := 0];
    forall k | 0 <= k < |order'| ensures BlockOk(b, order', life', counter', pool - {block}, done, k) {
      if k < |order| {
        assert BlockOk(b, order, life, counter, pool, done, k);
      } else {
        forall j | 0 <= j < k && life'[j] != Returned ensures order'[j] != order'[k] {
          assert BlockOk(b, order, life, counter, pool, done, j);
        }
      }
    }
  }

  lemma BlocksDiffer(b: nat, order: seq<nat>, life: seq<Life>, counter: seq<nat>, pool: set<nat>, done: set<nat>,
      j: nat, k: nat)
    requires b > 0 && BlocksOk(b, order, life, counter, pool, done) && j < |order| && k < |order| && j != k
    requires life[j] != Returned && life[k] != Returned
    ensures order[j] != order[k]
  {
    hide Count;
    assert BlockOk(b, order, life, counter, pool, done, j) && BlockOk(b, order, life, counter, pool, done, k);
  }

  /** Counting some indices of a block; the block is full exactly when its last index is counted. */
  lemma BlocksCounted(b: nat, order: seq<nat>, life: seq<Life>, counter: seq<nat>, pool: set<nat>, done: set<nat>,
      k: nat, from: nat, to: nat, t: nat)
    requires b > 0 && BlocksOk(b, order, life, counter, pool, done) && k < |order| && from < to
    requires forall i: nat :: from <= i < to ==> Blk(i, b) == k && i !in done
    ensures life[k] == Open && order[k] < |counter| && counter[order[k]] + (to - from) <= b
    ensures var counted := counter[order[k]] + (to - from);
            BlocksOk(b, order, if counted == b then life[k := Closing(t)] else life, counter[order[k] := counted],
                     pool, done + Range(from, to))
  {
    hide Blk, Count, Range;
    assert Blk(from, b) == k;
    IsOpen(b, order, life, counter, pool, done, from);
    assert BlockOk(b, order, life, counter, pool, done, k);
    var counted := counter[order[k]] + (to - from);
    var life' := if counted == b then life[k := Closing(t)] else life;
    var done' := done + Range(from, to);
    CountAdd(done, from, to, k, b);
    CountFull(done', k, b);
    var counter' := counter[order[k] := counted];
    forall j | 0 <= j < |order| ensures BlockOk(b, order, life', counter', pool, done', j) {
      assert BlockOk(b, order, life, counter, pool, done, j);
      if j != k && life[j] != Returned {
        BlocksDiffer(b, order, life, counter, pool, done, j, k);
      }
    }
  }

  lemma BlocksAged(b: nat, order: seq<nat>, life: seq<Life>, counter: seq<nat>, pool: set<nat>, done: set<nat>,
      k: nat, l: Life)
    requires b > 0 && BlocksOk(b, order, life, counter, pool, done) && k < |order| && life[k] != Open
    requires (l.Nulled? && life[k].Closing?) || (l == Returned && life[k].Nulled?)
    ensures order[k] < |counter|
    ensures BlocksOk(b, order, life[k := l], counter, if l == Returned then pool + {order[k]} else pool, done)
  {
    hide Count;
    assert BlockOk(b, order, life, counter, pool, done, k);
    var pool' := if l == Returned then pool + {order[k]} else pool;
    var life' := life[k := l];
    forall j | 0 <= j < |order| ensures BlockOk(b, order, life', counter, pool', done, j) {
      assert BlockOk(b, order, life, counter, pool, done, j);
      if j != k && life[j] != Returned {
        BlocksDiffer(b, order, life, counter, pool, done, j, k);
      }
    }
  }

  lemma CellsWritten(b: nat, cells: seq<seq<Value>>, order: seq<nat>, life: seq<Life>, counter: seq<nat>,
      pool: set<nat>, done: set<nat>, values: seq<Value>, x: Value)
    requires b > 0 && BlocksOk(b, order, life, counter, pool, done) && Sized(b, cells) && |counter| == |cells|
    requires CellsOk(b, cells, order, values, done) && |values| !in done && 0 <= Blk(|values|, b) < |order|
    ensures var i := |values|;
            var block := order[Blk(i, b)];
            && block < |cells| && |cells[block]| == b
            && var cells' := cells[block := cells[block][Off(i, b) := x]];
              CellsOk(b, cells', order, values + [x], done) && Sized(b, cells')
  {
    hide Blk, Off, Count;
    var n, k := |values|, Blk(|values|, b);
    assert BlockOk(b, order, life, counter, pool, done, k);
    IsOpen(b, order, life, counter, pool, done, n);
    var block, values' := order[k], values + [x];
    var cells' := cells[block := cells[block][Off(n, b) := x]];
    forall i: nat | i < |values'| && i !in done ensures CellOk(b, cells', order, values', i) {
      if i < n {
        assert CellOk(b, cells, order, values, i);
        IsOpen(b, order, life, counter, pool, done, i);
        if Blk(i, b) == k {
          BlkInj(i, n, b);
        } else {
          BlocksDiffer(b, order, life, counter, pool, done, Blk(i, b), k);
        }
      }
    }
  }

  // --------------------------------------------------------- frame of a step

  predicate HeaderExtends(h: Header, h': Header) {
    h'.capacity == h.capacity && h'.origin == h.origin && h'.index == h.index && h.newest <= h'.newest
  }

  /** From s to s' index arrays only gain block numbers and histories only grow; and nothing of
      consumer u is counted, closed or freed. */
  ghost predicate Extends(s: State, s': State, u: nat) {
    && s'.b == s.b && |s.headers| <= |s'.headers|
    && (forall h :: 0 <= h < |s.headers| ==> HeaderExtends(s.headers[h], s'.headers[h]))
    && |s.entries| <= |s'.entries| && (forall e :: 0 <= e < |s.entries| && Valid(s.entries[e]) ==> Valid(s'.entries[e]))
    && |s.order| <= |s'.order| && (forall k :: 0 <= k < |s.order| ==> s'.order[k] == s.order[k])
    && |s.entryOf| <= |s'.entryOf| && (forall k :: 0 <= k < |s.entryOf| ==> s'.entryOf[k] == s.entryOf[k])
    && |s.life| <= |s'.life|
    && (forall k :: 0 <= k < |s.life| && (s.life[k] == Closing(u) || s.life[k] == Nulled(u)) ==>
       s'.life[k] == s.life[k])
    && |s.claims| <= |s'.claims| && (forall x :: 0 <= x < |s.claims| ==> s'.claims[x] == s.claims[x])
    && s.head <= s'.head <= |s'.claims|
    && (forall x: nat :: x in s'.done && x !in s.done ==> x < |s.claims| && s.claims[x] != u)
    && (forall x: nat :: x in s.got ==> x in s'.got)
  }

  lemma OwnsKept(s: State, s': State, u: nat, i: nat, end: nat)
    requires Extends(s, s', u) && Owns(s, u, i, end)
    ensures Owns(s', u, i, end)
  {
  }

  lemma ReachesKept(s: State, s': State, u: nat, h: nat, end: nat, k: int, slot: int)
    requires s.b > 0 && Extends(s, s', u)
    ensures Reaches(s, h, end) ==> s'.b > 0 && Reaches(s', h, end)
    ensures SlotOk(s, h, k, slot) ==> SlotOk(s', h, k, slot)
  {
    hide Blk, Slot;
    assert h < |s.headers| ==> HeaderExtends(s.headers[h], s'.headers[h]);
  }

  lemma RemainsKept(s: State, s': State, u: nat, k: int, to: nat, end: nat, h: nat, slot: nat)
    requires s.b > 0 && Extends(s, s', u) && Remains(s, u, k, to, end, h, slot)
    ensures s'.b > 0 && Remains(s', u, k, to, end, h, slot)
  {
    hide Blk, Slot, Owns, Extends, Reaches, SlotOk;
    assert s'.b == s.b by { SameB(s, s', u); }
    OwnsKept(s, s', u, to, end);
    ReachesKept(s, s', u, h, end, k, slot);
  }

  lemma SameB(s: State, s': State, u: nat)
    requires Extends(s, s', u)
    ensures s'.b == s.b
  {
  }

  lemma ConsumerKept(s: State, s': State, u: nat)
    requires s.b > 0 && s'.b > 0 && u < |s.consumers| == |s'.consumers|
    requires s'.consumers[u] == s.consumers[u] && ConsumerOk(s, u) && Extends(s, s', u)
    ensures ConsumerOk(s', u)
  {
    hide Blk, Off, Slot, Owns, Reaches, SlotOk, Remains;
    match s.consumers[u] {
      case Away =>
      case LoadHeader(i, end) => OwnsKept(s, s', u, i, end);
      case LoadTail(i, end, h) =>
        OwnsKept(s, s', u, i, end);
        ReachesKept(s, s', u, h, end, 0, 0);
      case LoadKey(i, end, h, f) =>
        OwnsKept(s, s', u, i, end);
        ReachesKept(s, s', u, h, end, 0, 0);
        assert HeaderExtends(s.headers[h], s'.headers[h]) by { InReach(s, h, end); }
      case LoadValue(i, end, h, slot) =>
        OwnsKept(s, s', u, i, end);
        ReachesKept(s, s', u, h, end, Blk(i, s.b), slot);
      case Read(from, i, end, h, slot, e, block) =>
        OwnsKept(s, s', u, from, end);
        ReachesKept(s, s', u, h, end, Blk(i, s.b), slot);
      case AddCount(from, to, end, h, slot, e, block) =>
        OwnsKept(s, s', u, from, end);
        RemainsKept(s, s', u, Blk(from, s.b), to, end, h, slot);
      case StoreNull(k, to, end, h, slot, e, block) => RemainsKept(s, s', u, k, to, end, h, slot);
      case FreeBlock(k, to, end, h, slot, block) => RemainsKept(s, s', u, k, to, end, h, slot);
    }
  }

  lemma InReach(s: State, h: nat, end: nat)
    requires s.b > 0 && Reaches(s, h, end)
    ensures h < |s.headers|
  {
  }

  lemma ProducerKeeps(s: State, s': State)
    requires Inv(s) && Core(s') && s'.consumers == s.consumers && forall u :: 0 <= u < |s.consumers| ==>
             Extends(s, s', u)
    ensures Inv(s')
  {
    hide Core, ConsumerOk, Extends;
    assert s.b > 0 && s'.b > 0 by { HasB(s); HasB(s'); }
    forall u | 0 <= u < |s'.consumers| ensures ConsumerOk(s', u) {
      ConsumerKept(s, s', u);
    }
  }

  lemma HasB(s: State)
    requires Core(s)
    ensures s.b > 0
  {
  }

  // --------------------------------------------------------- producer steps

  lemma RestInv(s: State, items: seq<Value>, s': State)
    requires Inv(s) && BeginEnqueue(s, items, s')
    ensures Inv(s')
  {
    hide Blk, Off, Slot, Base, EntriesOk, HeadersOk, OldsOk, LastOk, BlocksOk, Sized, CellsOk, DoneOk, ConsumerOk;
    UsedBlocks(s.tail, s.tail, s.b);
    assert Core(s');
    ProducerKeeps(s, s');
  }

  lemma PlacedInv(s: State, s': State)
    requires Inv(s) && s.producer.Place? && s.producer.need == 0 && ProducerStep(s, s')
    ensures Inv(s')
  {
    hide Blk, Off, Slot, Base, EntriesOk, HeadersOk, OldsOk, LastOk, BlocksOk, Sized, CellsOk, DoneOk, ConsumerOk;
    assert s.values[s.tail..] == [];
    assert s.producer.job.items[..0] == [];
    UsedBlocks(s.tail, s.tail, s.b);
    UsedBlocks(s.tail, s.tail + |s.producer.job.items|, s.b);
    BlkMono(0, s.tail, s.b);
    BlkZero(s.b);
    assert Core(s');
    ProducerKeeps(s, s');
  }

  lemma FreeSlotInv(s: State, s': State)
    requires Inv(s) && s.producer.Place? && s.producer.need > 0 && ProducerStep(s, s')
    requires !Valid(s.entries[NextEntry(s)]) || s.entries[NextEntry(s)].value < 0
    ensures Inv(s')
  {
    hide Blk, Off, Slot, Base, EntriesOk, HeadersOk, OldsOk, LastOk, BlocksOk, Sized, CellsOk, DoneOk, ConsumerOk;
    assert Core(s');
    ProducerKeeps(s, s');
  }

  lemma LiveEntries(b: nat, entries: seq<Entry>, entryOf: seq<nat>, order: seq<nat>, life: seq<Life>)
    requires EntriesOk(b, entries, entryOf, order, life) && b % 2 == 0
    ensures |life| == |order| <= |entryOf|
    ensures forall k :: 0 <= k < |life| && Live(life[k]) ==>
             && entryOf[k] < |entries| && Valid(entries[entryOf[k]])
             && entries[entryOf[k]].num == k
    ensures forall e :: 0 <= e < |entries| && Valid(entries[e]) ==>
            0 <= entries[e].num < |entryOf| && entryOf[entries[e].num] == e
  {
    hide Base;
    forall k | 0 <= k < |life| && Live(life[k])
      ensures entryOf[k] < |entries| && Valid(entries[entryOf[k]]) && entries[entryOf[k]].num == k
    {
      assert Placed(b, entries, entryOf, order, k);
      BaseValid(k, b);
    }
    forall e | 0 <= e < |entries| && Valid(entries[e])
      ensures 0 <= entries[e].num < |entryOf| && entryOf[entries[e].num] == e
    {
      assert EntryOk(b, entries[e], e, entryOf, order, life);
    }
  }

  lemma HeadersMore(headers: seq<Header>, entries: seq<Entry>, entryOf: seq<nat>, life: seq<Life>, n: nat)
    requires HeadersOk(headers, entries, entryOf, life)
    ensures HeadersOk(headers, entries + Repeat(n, Blank), entryOf, life)
  {
    forall h | 0 <= h < |headers| ensures HeaderOk(headers[h], entries + Repeat(n, Blank), entryOf, life) {
      HeaderAged(headers[h], entries, entries + Repeat(n, Blank), entryOf, life, life);
    }
  }

  lemma GrowCore(s: State, s': State)
    requires Core(s) && s.producer.Place? && s.producer.need > 0 && ProducerStep(s, s')
    requires Valid(s.entries[NextEntry(s)]) && s.entries[NextEntry(s)].value >= 0
    ensures Core(s')
  {
    hide Blk, Off, Slot, Base, EntriesOk, HeaderOk, OldsOk, LastOk, BlocksOk, Sized, CellsOk, DoneOk, Doubled, Repeat,
      KeptAt;
    var last := Last(s);
    assert HeaderOk(last, s.entries, s.entryOf, s.life);
    LiveEntries(s.b, s.entries, s.entryOf, s.order, s.life);
    DoubledOk(last, s.entries, s.entryOf, s.life);
    DoubledFields(last, |s.entries|);
    EntriesMore(s.b, s.entries, s.entryOf, s.order, s.life, last.capacity);
    HeadersMore(s.headers, s.entries, s.entryOf, s.life, last.capacity);
    FullIndex(last, s.entries, s.entryOf, s.life);
    AllValid(last, s.entries, |s.entryOf|);
    OldsDoubled(s.headers, s.entries, |s.order|, Doubled(last, |s.entries|), last.capacity);
    BlankNext(last, s.entries, |s.entryOf|);
    InEntries(Doubled(last, |s.entries|), s'.entries, |s.entryOf|);
  }

  /** The entry after the tail of the new index is blank: what the code asserts. */
  lemma BlankNext(h: Header, entries: seq<Entry>, placed: int)
    requires h.capacity > 0 && |h.index| == h.capacity
    requires forall j :: 0 <= j < h.capacity ==> KeptAt(h, entries, placed, j)
    ensures var d, entries' := Doubled(h, |entries|), entries + Repeat(h.capacity, Blank);
            NextTail(d) < |d.index| && d.index[NextTail(d)] < |entries'| && !Valid(entries'[d.index[NextTail(d)]])
  {
    hide Slot, KeptAt;
    DoubledSlots(h, entries, placed);
    SlotSmall(h.capacity, 2 * h.capacity);
  }

  lemma InEntries(h: Header, entries: seq<Entry>, placed: int)
    requires LastOk(h, entries, placed)
    ensures forall j :: 0 <= j < |h.index| ==> h.index[j] < |entries|
  {
  }

  lemma GrowInv(s: State, s': State)
    requires Inv(s) && s.producer.Place? && s.producer.need > 0 && ProducerStep(s, s')
    requires Valid(s.entries[NextEntry(s)]) && s.entries[NextEntry(s)].value >= 0
    ensures Inv(s')
  {
    hide Blk, Off, Slot, Base, EntriesOk, HeadersOk, OldsOk, LastOk, BlocksOk, Sized, CellsOk, DoneOk, ConsumerOk,
      Doubled, ProducerOk;
    GrowCore(s, s');
    ProducerKeeps(s, s');
  }

  lemma HeadersKeyed(headers: seq<Header>, entries: seq<Entry>, entryOf: seq<nat>, life: seq<Life>, placed: int,
      key: int)
    requires HeadersOk(headers, entries, entryOf, life) && OldsOk(headers, entries, placed) && |life| <= |entryOf|
             && key != INVALID_BLOCK_BASE
    requires var last := headers[|headers| - 1]; LastOk(last, entries, |entryOf|) && last.newest == |entryOf| - 1
    ensures var last := headers[|headers| - 1];
            && last.capacity > 0 && |last.index| == last.capacity && last.index[NextTail(last)] < |entries|
            && var e := last.index[NextTail(last)];
              HeadersOk(headers, entries[e := entries[e].(key := key, num := |entryOf|)], entryOf + [e], life)
  {
    hide Slot, HeaderOk, LastOk;
    var last := headers[|headers| - 1];
    assert HeaderOk(last, entries, entryOf, life);
    LastShape(last, entries, entryOf, life);
    var e := last.index[NextTail(last)];
    if Valid(entries[e]) {
      OneTurnBack(last, entries, entryOf, life);
    }
    var entries' := entries[e := entries[e].(key := key, num := |entryOf|)];
    forall h | 0 <= h < |headers| ensures HeaderOk(headers[h], entries', entryOf + [e], life) {
      assert HeaderOk(headers[h], entries, entryOf, life);
      if h < |headers| - 1 {
        assert OldOk(headers[h], entries, last.capacity, placed);
        OldKeyedSlots(headers[h], last, entries, entryOf, life, placed, e);
      }
      HeaderKeyed(headers[h], entries, entryOf, life, e, key);
    }
  }

  lemma LastShape(h: Header, entries: seq<Entry>, entryOf: seq<nat>, life: seq<Life>)
    requires HeaderOk(h, entries, entryOf, life) && LastOk(h, entries, |entryOf|) && h.newest == |entryOf| - 1
    ensures h.capacity > 0 && |h.index| == h.capacity && h.index[NextTail(h)] < |entries|
    ensures forall j :: 0 <= j < h.capacity && h.index[j] == h.index[NextTail(h)] ==>
            Slot(|entryOf| - h.origin, h.capacity) == j
  {
    hide Slot;
    NextSlot(h);
  }

  lemma StoreKeyCore(s: State, s': State)
    requires Core(s) && s.producer.StoreKey? && ProducerStep(s, s')
    ensures Core(s')
  {
    hide Blk, Off, Slot, Base, EntriesOk, HeadersOk, OldsOk, LastOk, BlocksOk, Sized, CellsOk, DoneOk, Repeat;
    var e := NextEntry(s);
    assert HeaderOk(Last(s), s.entries, s.entryOf, s.life) by { LastHeader(s.headers, s.entries, s.entryOf, s.life); }
    assert |s.life| == |s.order| by { LiveEntries(s.b, s.entries, s.entryOf, s.order, s.life); }
    BaseValid(|s.entryOf|, s.b);
    EntriesKeyed(s.b, s.entries, s.entryOf, s.order, s.life, e);
    HeadersKeyed(s.headers, s.entries, s.entryOf, s.life, |s.order|, Base(|s.entryOf|, s.b));
    OldsKept(s.headers, s.headers, s.entries, s'.entries, |s.order|, |s.order|);
    LastKeyed(Last(s), s.entries, s.entryOf, s.life, Base(|s.entryOf|, s.b));
  }

  lemma LastHeader(headers: seq<Header>, entries: seq<Entry>, entryOf: seq<nat>, life: seq<Life>)
    requires HeadersOk(headers, entries, entryOf, life) && |headers| > 0
    ensures HeaderOk(headers[|headers| - 1], entries, entryOf, life)
  {
  }

  lemma StoreKeyInv(s: State, s': State)
    requires Inv(s) && s.producer.StoreKey? && ProducerStep(s, s')
    ensures Inv(s')
  {
    hide Blk, Off, Slot, EntriesOk, HeadersOk, OldsOk, LastOk, BlocksOk, Sized, CellsOk, DoneOk, ConsumerOk, Base;
    StoreKeyCore(s, s');
    BaseValid(Used(s.tail + |s.producer.job.items|, s.b) - s.producer.need, s.b);
    ProducerKeeps(s, s');
  }

  lemma LastSame(h: Header, h': Header, entries: seq<Entry>, entries': seq<Entry>, placed: int)
    requires LastOk(h, entries, placed) && HeaderExtends(h, h') && |entries'| == |entries|
    requires forall e :: 0 <= e < |entries| ==> entries'[e].key == entries[e].key && entries'[e].num == entries[e].num
    ensures LastOk(h', entries', placed)
  {
    hide Slot;
    forall j | 0 <= j < h'.capacity ensures Recent(h', entries', placed, j) {
      assert Recent(h, entries, placed, j);
    }
    forall k | h'.origin <= k < placed && placed - h'.capacity <= k ensures Kept(h', entries', k) {
      assert Kept(h, entries, k);
    }
  }

  lemma StoreTailCore(s: State, s': State)
    requires Core(s) && s.producer.StoreTail? && ProducerStep(s, s')
    ensures Core(s')
  {
    hide Blk, Off, Slot, Base, EntriesOk, HeaderOk, OldsOk, LastOk, BlocksOk, Sized, CellsOk, DoneOk, Repeat;
    LiveEntries(s.b, s.entries, s.entryOf, s.order, s.life);
    var last := Last(s);
    assert HeaderOk(last, s.entries, s.entryOf, s.life);
    HeaderTail(last, s.entries, s.entryOf, s.life);
    forall h | 0 <= h < |s'.headers| ensures HeaderOk(s'.headers[h], s'.entries, s'.entryOf, s'.life) {
      assert HeaderOk(s.headers[h], s.entries, s.entryOf, s.life);
    }
    OldsKept(s.headers, s'.headers, s.entries, s.entries, |s.order|, |s.order|);
    LastSame(last, Last(s'), s.entries, s.entries, |s.entryOf|);
  }

  lemma StoreTailInv(s: State, s': State)
    requires Inv(s) && s.producer.StoreTail? && ProducerStep(s, s')
    ensures Inv(s')
  {
    hide Blk, Off, Slot, Base, EntriesOk, HeadersOk, OldsOk, LastOk, BlocksOk, Sized, CellsOk, DoneOk, ConsumerOk,
      ProducerOk;
    StoreTailCore(s, s');
    ProducerKeeps(s, s');
  }

  lemma HeadersOpened(headers: seq<Header>, entries: seq<Entry>, entries': seq<Entry>, entryOf: seq<nat>,
      life: seq<Life>)
    requires HeadersOk(headers, entries, entryOf, life) && OldsOk(headers, entries, |life|) && |entries'| == |entries|
             && |entryOf| == |life| + 1
    requires forall e :: 0 <= e < |entries| ==> entries'[e].key == entries[e].key && entries'[e].num == entries[e].num
    requires var last := headers[|headers| - 1]; last.tail < |last.index| && last.index[last.tail] == entryOf[|life|]
    ensures HeadersOk(headers, entries', entryOf, life + [Open])
  {
    hide HeaderOk;
    forall h | 0 <= h < |headers| ensures HeaderOk(headers[h], entries', entryOf, life + [Open]) {
      assert HeaderOk(headers[h], entries, entryOf, life);
      assert h < |headers| - 1 ==> OldOk(headers[h], entries, headers[|headers| - 1].capacity, |life|);
      HeaderTailBound(headers[h], entries, entryOf, life);
      HeaderOpened(headers[h], entries, entries', entryOf, life);
    }
  }

  lemma CellsMore(b: nat, cells: seq<seq<Value>>, order: seq<nat>, values: seq<Value>, done: set<nat>,
      cells': seq<seq<Value>>, block: nat)
    requires b > 0 && CellsOk(b, cells, order, values, done) && Sized(b, cells)
    requires cells' == cells || (|cells'| == |cells| + 1 && cells'[..|cells|] == cells && |cells'[|cells|]| == b)
    ensures CellsOk(b, cells', order + [block], values, done) && Sized(b, cells')
  {
    hide Blk, Off;
    assert forall c :: 0 <= c < |cells| ==> cells'[c] == cells'[..|cells|][c];
    forall i: nat | i < |values| && i !in done ensures CellOk(b, cells', order + [block], values, i) {
      assert CellOk(b, cells, order, values, i);
    }
  }

  /** No index of a block beyond those in use has been counted. */
  lemma NoneCounted(s: State, k: int)
    requires s.b > 0 && DoneOk(s.done, s.got, s.values, s.head) && CountsOk(s) && k >= Used(s.tail, s.b)
    ensures Count(s.done, k, s.b) == 0
  {
    hide Blk, Off;
    forall i | i in s.done ensures Blk(i, s.b) != k {
      UsedBlocks(i, s.tail, s.b);
    }
    CountNone(s.done, k, s.b);
  }

  /** The blocks from the one of the tail on are in use: none is in the pool, and no two are the same. */
  lemma OpenFrom(s: State, k: nat)
    requires Core(s) && Blk(s.tail, s.b) <= k < |s.order|
    ensures |s.life| == |s.order| && s.life[k] == Open && s.order[k] < |s.next| && s.order[k] !in s.pool
    ensures forall j :: 0 <= j < |s.order| && s.life[j] == Open && j != k ==> s.order[j] != s.order[k]
  {
    hide Blk, Off, Slot, Base, Count, EntriesOk, HeadersOk, OldsOk, LastOk, Sized, CellsOk, TailOk, FreeNext,
      KeyedLast, ProducerOk;
    assert BlockOk(s.b, s.order, s.life, s.counter, s.pool, s.done, k);
    var i := if k == Blk(s.tail, s.b) then s.tail else k * s.b;
    InBlock(k * s.b, k, s.b);
    if k * s.b < s.tail {
      BlkMono(k * s.b, s.tail, s.b);
    }
    IsOpen(s.b, s.order, s.life, s.counter, s.pool, s.done, i);
    forall j | 0 <= j < |s.order| && s.life[j] == Open && j != k ensures s.order[j] != s.order[k] {
      BlocksDiffer(s.b, s.order, s.life, s.counter, s.pool, s.done, j, k);
    }
  }

  lemma ChainGrows(next: seq<int>, next1: seq<int>, order: seq<nat>, from: nat, block: nat, after: int)
    requires Chained(next, order, from) && block <= |next|
    requires forall k :: from <= k < |order| ==> order[k] < |next| && order[k] != block
    requires forall k :: from <= k < |order| - 1 ==> order[k] != order[|order| - 1]
    requires next1 == if block == |next| then next + [after] else next[block := after]
    ensures Chained(if from < |order| then next1[order[|order| - 1] := block] else next1, order + [block], from)
  {
  }

  lemma LinksInside(s: State, job: Job)
    requires s.b > 0 && JobOk(s, job, Used(s.tail, s.b))
    ensures 0 <= Blk(s.tail, s.b) && (Linking(s, job) <==> Blk(s.tail, s.b) < |s.order|)
  {
    hide Blk, Off, Chained;
    UsedBlocks(s.tail, s.tail, s.b);
    BlkMono(0, s.tail, s.b);
    BlkZero(s.b);
  }

  /** So the block that is linked to the new one is the producer's, and the link breaks no other. */
  lemma JobMore(s: State, job: Job, block: nat, after: int)
    requires Core(s) && JobOk(s, job, Used(s.tail, s.b)) && (block in s.pool || block == |s.next|) && block <= |s.next|
    requires s.order != [] ==> s.tailBlock == s.order[|s.order| - 1]
    ensures |s.order| >= Used(s.tail, s.b)
    ensures Linking(s, job) ==> 0 <= s.tailBlock < |s.next| && |s.order| - 1 >= Blk(s.tail, s.b)
    ensures JobOn(Extended(job, block), Used(s.tail, s.b), s.order + [block], Linked(s, job, block, after),
            Blk(s.tail, s.b))
    ensures |Linked(s, job, block, after)| == if block == |s.next| then |s.next| + 1 else |s.next|
  {
    hide Core, Blk, Off, Chained;
    HasB(s);
    LinksInside(s, job);
    var from: nat, n := Blk(s.tail, s.b), |s.order|;
    forall k | from <= k < n
      ensures s.order[k] < |s.next| && s.order[k] != block && (k < n - 1 ==> s.order[k] != s.order[n - 1])
    {
      OpenFrom(s, k);
      OpenFrom(s, n - 1);
    }
    var next1 := if block == |s.next| then s.next + [after] else s.next[block := after];
    ChainGrows(s.next, next1, s.order, from, block, after);
  }

  lemma StoreValueCore(s: State, block: nat, after: int, s': State)
    requires Core(s) && s.producer.StoreValue? && Publishes(s, s.producer.job, s.producer.need, block, after, s')
    ensures Core(s')
  {
    hide Blk, Off, Slot, Base, EntriesOk, HeadersOk, OldsOk, LastOk, BlocksOk, Sized, CellsOk, DoneOk, Repeat, JobOn,
      Linked, Linking;
    var e := s.entryOf[|s.entryOf| - 1];
    JobMore(s, s.producer.job, block, after);
    LiveEntries(s.b, s.entries, s.entryOf, s.order, s.life);
    NoneCounted(s, |s.order|);
    EntriesValued(s.b, s.entries, s.entryOf, s.order, s.life, e, block);
    HeadersOpened(s.headers, s.entries, s'.entries, s.entryOf, s.life);
    OldsKept(s.headers, s.headers, s.entries, s'.entries, |s.order|, |s'.order|);
    LastSame(Last(s), Last(s), s.entries, s'.entries, |s.entryOf|);
    BlocksOpened(s.b, s.order, s.life, s.counter, s.pool, s.done, block);
    CellsMore(s.b, s.cells, s.order, s.values, s.done, s'.cells, block);
  }

  lemma StoreValueInv(s: State, block: nat, after: int, s': State)
    requires Inv(s) && s.producer.StoreValue? && Publishes(s, s.producer.job, s.producer.need, block, after, s')
    ensures Inv(s')
  {
    hide Blk, Off, Slot, Base, EntriesOk, HeadersOk, OldsOk, LastOk, BlocksOk, Sized, CellsOk, DoneOk, ConsumerOk,
      ProducerOk, Linked, Linking;
    StoreValueCore(s, block, after, s');
    ProducerKeeps(s, s');
  }

  /** At the end of a stretch, the walk is at the end block exactly if all items are written; if not, the
      next pointer leads to the block of the next element. */
  lemma WalksOn(s: State)
    requires Core(s) && s.producer.Write? && Stops(s, s.producer.job, s.producer.n)
    ensures var job, n := s.producer.job, s.producer.n;
            && (s.tailBlock == job.end <==> n + 1 == |job.items|)
            && (n + 1 < |job.items| ==>
                  && 0 <= s.tailBlock < |s.next| && 0 <= Blk(s.tail + n + 1, s.b) < |s.order|
                  && s.next[s.tailBlock] == s.order[Blk(s.tail + n + 1, s.b)])
  {
    var job, n := s.producer.job, s.producer.n;
    var i := s.tail + n;
    var k, last := Blk(i, s.b), |s.order| - 1;
    assert JobOk(s, job, Used(s.tail, s.b)) && |s.order| == Used(s.tail + |job.items|, s.b) && AtBlock(s, i)
      && n < |job.items|;
    hide Core, Blk, Off;
    BlkMono(s.tail, i, s.b);
    BlkNext(i, s.b);
    if n + 1 < |job.items| {
      UsedBlocks(i + 1, s.tail + |job.items|, s.b);
      OpenFrom(s, k);
      OpenFrom(s, last);
    }
  }

  lemma BlkZero(b: nat)
    requires b > 0
    ensures Blk(0, b) == 0
  {
    DivMod(0, b, 0, 0);
  }

  lemma WriteCore(s: State, s': State)
    requires Core(s) && s.producer.Write? && ProducerStep(s, s')
    ensures Core(s')
  {
    hide Blk, Off, Slot, Base, EntriesOk, HeadersOk, OldsOk, LastOk, BlocksOk, Sized, CellsOk, Repeat, JobOn, Stops;
    var job, n := s.producer.job, s.producer.n;
    CellsWritten(s.b, s.cells, s.order, s.life, s.counter, s.pool, s.done, s.values, job.items[n]);
    assert s'.values[s.tail..] == s.values[s.tail..] + [job.items[n]];
    assert job.items[..n] + [job.items[n]] == job.items[..n + 1];
    assert job.items[..|job.items|] == job.items;
    if Stops(s, job, n) {
      WalksOn(s);
      EndIsLast(s);
    } else {
      SameStretch(s, job, n);
    }
  }

  lemma EndIsLast(s: State)
    requires Core(s) && s.producer.Write?
    ensures s.tailBlock == s.producer.job.end ==> s.order != [] && s.tailBlock == s.order[|s.order| - 1]
  {
  }

  lemma SameStretch(s: State, job: Job, n: nat)
    requires s.b > 0 && !Stops(s, job, n)
    ensures n + 1 != |job.items| && Blk(s.tail + n + 1, s.b) == Blk(s.tail + n, s.b)
  {
    hide Blk, Off;
    BlkNext(s.tail + n, s.b);
  }

  lemma WriteInv(s: State, s': State)
    requires Inv(s) && s.producer.Write? && ProducerStep(s, s')
    ensures Inv(s')
  {
    hide Blk, Off, Slot, Base, EntriesOk, HeadersOk, OldsOk, LastOk, BlocksOk, Sized, CellsOk, DoneOk, ConsumerOk,
      ProducerOk, Stops;
    WriteCore(s, s');
    ProducerKeeps(s, s');
  }

  lemma ShowTailInv(s: State, s': State)
    requires Inv(s) && s.producer.ShowTail? && ProducerStep(s, s')
    ensures Inv(s')
  {
    hide Blk, Off, Slot, Base, EntriesOk, HeadersOk, OldsOk, LastOk, BlocksOk, Sized, CellsOk, DoneOk, ConsumerOk;
    assert Core(s');
    ProducerKeeps(s, s');
  }

  lemma PlaceInv(s: State, s': State)
    requires Inv(s) && s.producer.Place? && ProducerStep(s, s')
    ensures Inv(s')
  {
    assert Sane(s);
    hide Inv;
    if s.producer.need == 0 {
      PlacedInv(s, s');
    } else if !Valid(s.entries[NextEntry(s)]) || s.entries[NextEntry(s)].value < 0 {
      FreeSlotInv(s, s');
    } else {
      GrowInv(s, s');
    }
  }

  lemma ProducerInv(s: State, s': State)
    requires Inv(s) && ProducerStep(s, s')
    ensures Inv(s')
  {
    assert Sane(s);
    hide Inv;
    match s.producer {
      case Rest =>
        var items: seq<Value> :| BeginEnqueue(s, items, s');
        RestInv(s, items, s');
      case Place(_, _) => PlaceInv(s, s');
      case StoreKey(_, _) => StoreKeyInv(s, s');
      case StoreTail(_, _) => StoreTailInv(s, s');
      case StoreValue(job, need) =>
        var block: nat, after: int :| Publishes(s, job, need, block, after, s');
        StoreValueInv(s, block, after, s');
      case Write(_, _) => WriteInv(s, s');
      case ShowTail(_) => ShowTailInv(s, s');
    }
  }

  // --------------------------------------------------------- consumers' steps

  lemma ConsumerKeeps(s: State, t: nat, s': State)
    requires Inv(s) && Core(s') && t < |s.consumers| == |s'.consumers| && ConsumerOk(s', t)
    requires forall u :: 0 <= u < |s.consumers| && u != t ==> s'.consumers[u] == s.consumers[u] && Extends(s, s', u)
    ensures Inv(s')
  {
    hide Core, ConsumerOk, Extends;
    assert s.b > 0 && s'.b > 0 by { HasB(s); HasB(s'); }
    forall u | 0 <= u < |s'.consumers| ensures ConsumerOk(s', u) {
      if u != t {
        ConsumerKept(s, s', u);
      }
    }
  }

  lemma CoreMoves(s: State, t: nat, p: Consumer)
    requires Core(s) && t < |s.consumers|
    ensures Core(Goes(s, t, p))
  {
    hide Blk, Off, Slot, Base, EntriesOk, HeadersOk, OldsOk, LastOk, BlocksOk, Sized, CellsOk, DoneOk;
  }

  /** A step that only moves the consumer. */
  lemma Moves(s: State, t: nat, p: Consumer)
    requires Inv(s) && t < |s.consumers| && ConsumerOk(Goes(s, t, p), t)
    ensures Inv(Goes(s, t, p))
  {
    hide Blk, Off, Slot, Base, EntriesOk, HeadersOk, OldsOk, LastOk, BlocksOk, Sized, CellsOk, DoneOk, ConsumerOk,
      ProducerOk;
    CoreMoves(s, t, p);
    ConsumerKeeps(s, t, Goes(s, t, p));
  }

  lemma ClaimsInv(s: State, t: nat, n: nat, s': State)
    requires Inv(s) && t < |s.consumers| && Claims(s, t, n, s')
    ensures Inv(s')
  {
    hide Blk, Off, Slot, Base, EntriesOk, HeadersOk, OldsOk, LastOk, BlocksOk, Sized, CellsOk, ConsumerOk;
    assert Core(s');
    assert ConsumerOk(s', t) by { ClaimedOk(s, t, n, s'); }
    ConsumerKeeps(s, t, s');
  }

  lemma ClaimedOk(s: State, t: nat, n: nat, s': State)
    requires Core(s) && t < |s.consumers| && Claims(s, t, n, s')
    ensures ConsumerOk(s', t)
  {
    hide Blk, Off, Slot, Base, EntriesOk, HeadersOk, OldsOk, LastOk, BlocksOk, Sized, CellsOk, ProducerOk;
  }

  lemma LoadHeaderInv(s: State, t: nat, s': State)
    requires Inv(s) && t < |s.consumers| && s.consumers[t].LoadHeader? && ConsumerStep(s, t, s')
    ensures Inv(s')
  {
    hide Blk, Off, Slot, Base, EntriesOk, HeadersOk, OldsOk, LastOk, BlocksOk, Sized, CellsOk, DoneOk;
    assert ConsumerOk(s, t);
    AllReached(s, s.consumers[t].end);
    Moves(s, t, s'.consumers[t]);
  }

  /** The current index reaches every published index. */
  lemma AllReached(s: State, end: nat)
    requires Core(s) && 0 < end <= s.tail
    ensures Blk(end - 1, s.b) <= Last(s).newest
  {
    hide Blk, Off, Slot, Base, EntriesOk, HeadersOk, OldsOk, LastOk, BlocksOk, Sized, CellsOk, DoneOk;
    BlkMono(end - 1, s.tail - 1, s.b);
  }

  lemma LoadTailInv(s: State, t: nat, s': State)
    requires Inv(s) && t < |s.consumers| && s.consumers[t].LoadTail? && ConsumerStep(s, t, s')
    ensures Inv(s')
  {
    hide Blk, Off, Slot, Base, EntriesOk, OldsOk, LastOk, BlocksOk, Sized, CellsOk, DoneOk, ProducerOk;
    assert ConsumerOk(s, t);
    var h, end := s.consumers[t].h, s.consumers[t].end;
    assert HeaderOk(s.headers[h], s.entries, s.entryOf, s.life);
    BlkMono(0, end - 1, s.b);
    BlkZero(s.b);
    Moves(s, t, s'.consumers[t]);
  }

  lemma LoadKeyInv(s: State, t: nat, s': State)
    requires Inv(s) && Fits(s) && t < |s.consumers| && s.consumers[t].LoadKey? && ConsumerStep(s, t, s')
    ensures Inv(s')
  {
    hide Blk, Off, Slot, Base, OldsOk, LastOk, BlocksOk, Sized, CellsOk, DoneOk, ProducerOk, SlotFrom;
    assert ConsumerOk(s, t);
    var i, h, f := s.consumers[t].i, s.consumers[t].h, s.consumers[t].t;
    var header := s.headers[h];
    var id := header.index[f];
    assert HeaderOk(header, s.entries, s.entryOf, s.life) && SlotHolds(header, s.entries, f);
    assert EntryOk(s.b, s.entries[id], id, s.entryOf, s.order, s.life);
    var n := s.entries[id].num;
    BlkBase(i, s.b);
    SlotFromBases(f, Blk(i, s.b), n, s.b, header.capacity);
    SlotShift(n - header.origin, Blk(i, s.b) - n, header.capacity);
    Moves(s, t, s'.consumers[t]);
  }

  /** What a consumer finds in the slot it has computed: the entry of its block, with its key, and the
      block.  These are the assertions of the code. */
  lemma FindsItsBlock(s: State, t: nat)
    requires Inv(s) && t < |s.consumers| && s.consumers[t].LoadValue?
    ensures var c := s.consumers[t];
            var k := Blk(c.i, s.b);
            && 0 <= k < |s.order| && k < |s.entryOf| && c.h < |s.headers| && c.slot < |s.headers[c.h].index|
            && s.headers[c.h].index[c.slot] == s.entryOf[k] < |s.entries|
            && s.entries[s.entryOf[k]].key == Word(c.i - Off(c.i, s.b)) && s.entries[s.entryOf[k]].value == s.order[k]
  {
    hide Blk, Off, Slot, Base, OldsOk, LastOk, Sized, DoneOk, ProducerOk;
    assert ConsumerOk(s, t);
    var c := s.consumers[t];
    var k := Blk(c.i, s.b);
    assert CellOk(s.b, s.cells, s.order, s.values, c.i);
    IsOpen(s.b, s.order, s.life, s.counter, s.pool, s.done, c.i);
    BlkMono(c.i, c.end - 1, s.b);
    assert HeaderOk(s.headers[c.h], s.entries, s.entryOf, s.life);
    assert FindsBlock(s.headers[c.h], s.entryOf, k);
    assert Placed(s.b, s.entries, s.entryOf, s.order, k);
    BlkBase(c.i, s.b);
  }

  lemma LoadValueInv(s: State, t: nat, s': State)
    requires Inv(s) && t < |s.consumers| && s.consumers[t].LoadValue? && ConsumerStep(s, t, s')
    ensures Inv(s')
  {
    hide Blk, Off, Slot, Base, EntriesOk, HeadersOk, OldsOk, LastOk, BlocksOk, Sized, CellsOk, DoneOk, ProducerOk;
    assert ConsumerOk(s, t);
    FindsItsBlock(s, t);
    Moves(s, t, s'.consumers[t]);
  }

  /** The invariant one step on: the next block's slot, in the same index array. */
  lemma OnwardOk(s: State, t: nat, k: nat, to: nat, end: nat, h: nat, slot: nat)
    requires s.b > 0 && Remains(s, t, k, to, end, h, slot) && t < |s.consumers|
    requires h < |s.headers| && s.headers[h].capacity > 0
             && s.consumers[t] == Onward(to, end, h, slot, s.headers[h].capacity)
    ensures ConsumerOk(s, t)
  {
    hide Blk, Off, Slot;
    SlotShift(k - s.headers[h].origin, 1, s.headers[h].capacity);
  }

  lemma ReadCore(s: State, t: nat, s': State)
    requires Core(s) && t < |s.consumers| && s.consumers[t].Read? && ConsumerOk(s, t) && ConsumerStep(s, t, s')
    ensures Core(s') && s.consumers[t].i < |s.values| && s'.got == s.got[s.consumers[t].i := s.values[s.consumers[t].i]]
  {
    hide Blk, Off, Slot, Base, EntriesOk, HeadersOk, OldsOk, LastOk, BlocksOk, Sized;
    assert CellOk(s.b, s.cells, s.order, s.values, s.consumers[t].i);
  }

  lemma ReadOk(s: State, t: nat, s': State)
    requires Core(s) && t < |s.consumers| && s.consumers[t].Read? && ConsumerOk(s, t) && ConsumerStep(s, t, s')
    ensures s'.b > 0 && |s'.consumers| == |s.consumers| && ConsumerOk(s', t)
  {
    hide Blk, Off, Slot, Base, EntriesOk, HeadersOk, OldsOk, LastOk, BlocksOk, Sized, CellsOk, DoneOk, ProducerOk;
    var c := s.consumers[t];
    BlkNext(c.i, s.b);
    if c.i + 1 < c.end {
      BlkMono(c.i + 1, c.end - 1, s.b);
    }
  }

  lemma ReadInv(s: State, t: nat, s': State)
    requires Inv(s) && t < |s.consumers| && s.consumers[t].Read? && ConsumerStep(s, t, s')
    ensures Inv(s')
  {
    hide Blk, Off, Slot, Base, EntriesOk, HeadersOk, OldsOk, LastOk, BlocksOk, Sized, CellsOk, DoneOk, ConsumerOk,
      ProducerOk;
    assert ConsumerOk(s, t);
    ReadCore(s, t, s');
    ReadOk(s, t, s');
    ConsumerKeeps(s, t, s');
  }

  /** Indices from a to z lie in one block when the ends do. */
  lemma SameBlock(a: int, z: int, b: nat)
    requires b > 0 && Blk(a, b) == Blk(z, b)
    ensures forall i: nat :: a <= i <= z ==> Blk(i, b) == Blk(a, b)
  {
    hide Blk;
    forall i: nat | a <= i <= z ensures Blk(i, b) == Blk(a, b) {
      BlkMono(a, i, b);
      BlkMono(i, z, b);
    }
  }

  lemma HeadersAged(headers: seq<Header>, entries: seq<Entry>, entries': seq<Entry>, entryOf: seq<nat>,
      life: seq<Life>, life': seq<Life>)
    requires HeadersOk(headers, entries, entryOf, life) && |entries| <= |entries'| && |life'| == |life|
    requires forall e :: 0 <= e < |entries| ==> entries'[e].key == entries[e].key && entries'[e].num == entries[e].num
    requires forall k :: 0 <= k < |life| && Live(life'[k]) ==> Live(life[k])
    ensures HeadersOk(headers, entries', entryOf, life')
  {
    hide HeaderOk;
    forall h | 0 <= h < |headers| ensures HeaderOk(headers[h], entries', entryOf, life') {
      assert HeaderOk(headers[h], entries, entryOf, life);
      HeaderAged(headers[h], entries, entries', entryOf, life, life');
    }
  }

  lemma CellsDone(b: nat, cells: seq<seq<Value>>, order: seq<nat>, values: seq<Value>, done: set<nat>, more: set<nat>)
    requires b > 0 && CellsOk(b, cells, order, values, done)
    ensures CellsOk(b, cells, order, values, done + more)
  {
    hide CellOk;
  }

  lemma DoneMore(done: set<nat>, got: map<nat, Value>, values: seq<Value>, head: nat, from: nat, to: nat)
    requires DoneOk(done, got, values, head) && to <= head && forall x: nat :: from <= x < to ==> x in got
    ensures DoneOk(done + Range(from, to), got, values, head)
  {
  }

  /** What Core says of the producer does not depend on the counters, the pool or the lives. */
  lemma ProducerSame(s: State, s': State)
    requires Core(s) && s' == s.(consumers := s'.consumers, counter := s'.counter, pool := s'.pool, done := s'.done,
             life := s'.life)
    ensures Sane(s') && Last(s').tail < |Last(s').index| && s'.b > 0 && s'.b % 2 == 0
    ensures TailOk(s') && FreeNext(s') && KeyedLast(s') && CountsOk(s') && ProducerOk(s')
  {
    hide Blk, Off, Slot, Base, EntriesOk, HeadersOk, OldsOk, LastOk, BlocksOk, Sized, CellsOk, DoneOk;
  }

  lemma AddCountCore(s: State, t: nat, s': State)
    requires Core(s) && t < |s.consumers| && s.consumers[t].AddCount? && ConsumerOk(s, t) && ConsumerStep(s, t, s')
    ensures Core(s')
    ensures s.life[Blk(s.consumers[t].from, s.b)] == Open
  {
    hide Blk, Off, Slot, Base, EntriesOk, HeadersOk, OldsOk, LastOk, BlocksOk, Sized, CellsOk, DoneOk, Range;
    hide TailOk, FreeNext, KeyedLast, ProducerOk;
    ProducerSame(s, s');
    var c := s.consumers[t];
    var k := Blk(c.from, s.b);
    SameBlock(c.from, c.to - 1, s.b);
    BlocksCounted(s.b, s.order, s.life, s.counter, s.pool, s.done, k, c.from, c.to, t);
    EntriesAged(s.b, s.entries, s.entryOf, s.order, s.life, k, Closing(t));
    HeadersAged(s.headers, s.entries, s.entries, s.entryOf, s.life, s'.life);
    CellsDone(s.b, s.cells, s.order, s.values, s.done, Range(c.from, c.to));
    DoneMore(s.done, s.got, s.values, s.head, c.from, c.to);
  }

  lemma AddCountOk(s: State, t: nat, s': State)
    requires Core(s) && t < |s.consumers| && s.consumers[t].AddCount? && ConsumerOk(s, t) && ConsumerStep(s, t, s')
    ensures s'.b > 0 && |s'.consumers| == |s.consumers| && ConsumerOk(s', t)
  {
    hide Core, Blk, Off, Slot, Onward;
    HasB(s);
    var c := s.consumers[t];
    var k := Blk(c.from, s.b);
    assert Remains(s', t, k, c.to, c.end, c.h, c.slot);
    if s.counter[c.block] + (c.to - c.from) != s.b {
      OnwardOk(s', t, k, c.to, c.end, c.h, c.slot);
    }
  }

  lemma AddCountFrame(s: State, t: nat, u: nat, s': State)
    requires Core(s) && t < |s.consumers| && s.consumers[t].AddCount? && ConsumerOk(s, t) && ConsumerStep(s, t, s')
    requires u != t && s.life[Blk(s.consumers[t].from, s.b)] == Open
    ensures Extends(s, s', u)
  {
    hide Core, Blk, Off, Slot, Onward, Remains;
    HasB(s);
    assert CountsOk(s) by { HasCounts(s); }
  }

  lemma HasCounts(s: State)
    requires Core(s)
    ensures CountsOk(s)
  {
  }

  lemma AddCountInv(s: State, t: nat, s': State)
    requires Inv(s) && t < |s.consumers| && s.consumers[t].AddCount? && ConsumerStep(s, t, s')
    ensures Inv(s')
  {
    hide Core, ConsumerOk, Extends, Blk, Range, Onward;
    HasB(s);
    assert ConsumerOk(s, t);
    AddCountCore(s, t, s');
    AddCountOk(s, t, s');
    forall u: nat | u < |s.consumers| && u != t ensures s'.consumers[u] == s.consumers[u] && Extends(s, s', u) {
      AddCountFrame(s, t, u, s');
    }
    ConsumerKeeps(s, t, s');
  }

  lemma NullCore(s: State, t: nat, s': State)
    requires Core(s) && t < |s.consumers| && s.consumers[t].StoreNull? && ConsumerOk(s, t) && ConsumerStep(s, t, s')
    ensures Core(s')
  {
    hide Blk, Off, Slot, Base, EntriesOk, HeadersOk, OldsOk, LastOk, BlocksOk, Sized, CellsOk, DoneOk;
    var c := s.consumers[t];
    EntriesNulled(s.b, s.entries, s.entryOf, s.order, s.life, c.k, t);
    HeadersAged(s.headers, s.entries, s'.entries, s.entryOf, s.life, s'.life);
    OldsKept(s.headers, s.headers, s.entries, s'.entries, |s.order|, |s.order|);
    LastSame(Last(s), Last(s), s.entries, s'.entries, |s.entryOf|);
    BlocksAged(s.b, s.order, s.life, s.counter, s.pool, s.done, c.k, Nulled(t));
  }

  lemma NullInv(s: State, t: nat, s': State)
    requires Inv(s) && t < |s.consumers| && s.consumers[t].StoreNull? && ConsumerStep(s, t, s')
    ensures Inv(s')
  {
    hide Core, ConsumerOk, Extends, Blk;
    HasB(s);
    assert ConsumerOk(s, t);
    NullCore(s, t, s');
    NullOk(s, t, s');
    ConsumerKeeps(s, t, s');
  }

  lemma NullOk(s: State, t: nat, s': State)
    requires Core(s) && t < |s.consumers| && s.consumers[t].StoreNull? && ConsumerOk(s, t) && ConsumerStep(s, t, s')
    ensures s'.b > 0 && |s'.consumers| == |s.consumers| && ConsumerOk(s', t)
    ensures forall u :: 0 <= u < |s.consumers| && u != t ==> s'.consumers[u] == s.consumers[u] && Extends(s, s', u)
  {
    hide Core, Blk, Off, Slot;
    HasB(s);
    HasCounts(s);
    var c := s.consumers[t];
    assert Remains(s', t, c.k, c.to, c.end, c.h, c.slot);
  }

  lemma FreeCore(s: State, t: nat, s': State)
    requires Core(s) && t < |s.consumers| && s.consumers[t].FreeBlock? && ConsumerOk(s, t) && ConsumerStep(s, t, s')
    ensures Core(s')
  {
    hide Blk, Off, Slot, Base, EntriesOk, HeadersOk, OldsOk, LastOk, BlocksOk, Sized, CellsOk, DoneOk;
    hide TailOk, FreeNext, KeyedLast, ProducerOk;
    ProducerSame(s, s');
    var c := s.consumers[t];
    EntriesAged(s.b, s.entries, s.entryOf, s.order, s.life, c.k, Returned);
    HeadersAged(s.headers, s.entries, s.entries, s.entryOf, s.life, s'.life);
    BlocksAged(s.b, s.order, s.life, s.counter, s.pool, s.done, c.k, Returned);
  }

  lemma FreeOk(s: State, t: nat, s': State)
    requires Core(s) && t < |s.consumers| && s.consumers[t].FreeBlock? && ConsumerOk(s, t) && ConsumerStep(s, t, s')
    ensures s'.b > 0 && |s'.consumers| == |s.consumers| && ConsumerOk(s', t)
    ensures forall u :: 0 <= u < |s.consumers| && u != t ==> s'.consumers[u] == s.consumers[u] && Extends(s, s', u)
  {
    hide Core, Blk, Off, Slot, Onward;
    HasB(s);
    HasCounts(s);
    var c := s.consumers[t];
    assert Remains(s', t, c.k, c.to, c.end, c.h, c.slot);
    OnwardOk(s', t, c.k, c.to, c.end, c.h, c.slot);
  }

  lemma FreeInv(s: State, t: nat, s': State)
    requires Inv(s) && t < |s.consumers| && s.consumers[t].FreeBlock? && ConsumerStep(s, t, s')
    ensures Inv(s')
  {
    hide Core, ConsumerOk, Extends, Blk;
    HasB(s);
    assert ConsumerOk(s, t);
    FreeCore(s, t, s');
    FreeOk(s, t, s');
    ConsumerKeeps(s, t, s');
  }

  lemma ConsumerInv(s: State, t: nat, s': State)
    requires Inv(s) && Fits(s) && t < |s.consumers| && s.b > 0 && ConsumerStep(s, t, s')
    ensures Inv(s')
  {
    hide Inv, Fits;
    match s.consumers[t] {
      case Away =>
        var n: nat :| Claims(s, t, n, s');
        ClaimsInv(s, t, n, s');
      case LoadHeader(_, _) => LoadHeaderInv(s, t, s');
      case LoadTail(_, _, _) => LoadTailInv(s, t, s');
      case LoadKey(_, _, _, _) => LoadKeyInv(s, t, s');
      case LoadValue(_, _, _, _) => LoadValueInv(s, t, s');
      case Read(_, _, _, _, _, _, _) => ReadInv(s, t, s');
      case AddCount(_, _, _, _, _, _, _) => AddCountInv(s, t, s');
      case StoreNull(_, _, _, _, _, _, _) => NullInv(s, t, s');
      case FreeBlock(_, _, _, _, _, _) => FreeInv(s, t, s');
    }
  }

  // --------------------------------------------------------------- every run

  lemma InitInv(s: State)
    requires Init(s)
    ensures Inv(s)
  {
    hide Slot;
    UsedBlocks(0, 0, s.b);
    SlotMinusOne(InitialSize);
  }

  lemma SlotMinusOne(size: nat)
    requires size > 0
    ensures Slot(-1, size) == size - 1
  {
    DivMod(-1, size, -1, size - 1);
  }

  lemma StepInv(s: State, s': State)
    requires Inv(s) && Fits(s) && Next(s, s')
    ensures Inv(s')
  {
    hide Inv, Fits, ProducerStep, ConsumerStep;
    if ProducerStep(s, s') {
      ProducerInv(s, s');
    } else {
      var t: nat :| t < |s.consumers| && ConsumerStep(s, t, s');
      ConsumerInv(s, t, s');
    }
  }

  lemma {:induction false} RunInv(run: seq<State>)
    requires Run(run)
    ensures Inv(run[|run| - 1])
  {
    hide Inv, Fits, Init, Next;
    if |run| == 1 {
      InitInv(run[0]);
    } else {
      var shorter := run[..|run| - 1];
      RunInv(shorter);
      StepInv(run[|run| - 2], run[|run| - 1]);
    }
  }

  lemma ReachableInv(s: State)
    requires Reachable(s)
    ensures Inv(s)
  {
    hide Inv;
    var run: seq<State> :| Run(run) && run[|run| - 1] == s;
    RunInv(run);
  }

  // ------------------------------------------------- nothing is left behind

  /** The indices a consumer has claimed and not counted. */
  function Low(c: Consumer): nat {
    match c
    case Away => 0
    case LoadHeader(i, _) => i
    case LoadTail(i, _, _) => i
    case LoadKey(i, _, _, _) => i
    case LoadValue(i, _, _, _) => i
    case Read(from, _, _, _, _, _, _) => from
    case AddCount(from, _, _, _, _, _, _) => from
    case StoreNull(_, to, _, _, _, _, _) => to
    case FreeBlock(_, to, _, _, _, _) => to
  }

  function High(c: Consumer): nat {
    if c == Away then 0 else c.end
  }

  predicate Holds(consumers: seq<Consumer>, t: nat, x: nat) {
    t < |consumers| && Low(consumers[t]) <= x < High(consumers[t])
  }

  /** A block being closed is in the hands of the consumer that closes it. */
  predicate Tended(consumers: seq<Consumer>, l: Life, k: nat) {
    && (l.Closing? ==> l.t < |consumers| && consumers[l.t].StoreNull? && consumers[l.t].k == k)
    && (l.Nulled? ==> l.t < |consumers| && consumers[l.t].FreeBlock? && consumers[l.t].k == k)
  }

  predicate InUse(order: seq<nat>, life: seq<Life>, block: nat) {
    exists j :: 0 <= j < |order| && j < |life| && order[j] == block && life[j] != Returned
  }

  ghost predicate Held(s: State) {
    && |s.life| == |s.order|
    && (forall x :: 0 <= x < |s.claims| && x !in s.done ==> Holds(s.consumers, s.claims[x], x))
    && (forall k :: 0 <= k < |s.life| ==> Tended(s.consumers, s.life[k], k))
    && (forall k :: 0 <= k < |s.order| ==> s.order[k] in s.pool || InUse(s.order, s.life, s.order[k]))
  }

  lemma InUseMore(order: seq<nat>, life: seq<Life>, block: nat, c: nat)
    requires InUse(order, life, c) && |order| == |life|
    ensures InUse(order + [block], life + [Open], c)
  {
    var j :| 0 <= j < |order| && order[j] == c && life[j] != Returned;
    assert (order + [block])[j] == c;
  }

  lemma InUseAged(order: seq<nat>, life: seq<Life>, k: nat, l: Life, c: nat)
    requires InUse(order, life, c) && k < |order| == |life| && (l != Returned || order[k] != c)
    ensures InUse(order, life[k := l], c)
  {
    var j :| 0 <= j < |order| && order[j] == c && life[j] != Returned;
    assert order[j] == c && life[k := l][j] != Returned;
  }

  lemma PublishHeld(s: State, job: Job, need: nat, block: nat, after: int, s': State)
    requires Held(s) && Sane(s) && Publishes(s, job, need, block, after, s')
    ensures Held(s')
  {
    hide InUse, Base, Blk, Linked, Linking;
    forall k | 0 <= k < |s'.order| ensures s'.order[k] in s'.pool || InUse(s'.order, s'.life, s'.order[k]) {
      if s'.order[k] == block {
        UsesLast(s.order, s.life, block);
      } else if InUse(s.order, s.life, s.order[k]) {
        InUseMore(s.order, s.life, block, s.order[k]);
      }
    }
  }

  lemma UsesLast(order: seq<nat>, life: seq<Life>, block: nat)
    requires |order| == |life|
    ensures InUse(order + [block], life + [Open], block)
  {
    assert (order + [block])[|order|] == block;
  }

  lemma ProducerHeld(s: State, s': State)
    requires Held(s) && Sane(s) && ProducerStep(s, s')
    ensures Held(s')
  {
    hide InUse, Tended, Holds, Slot, Blk, Base, Doubled, Repeat;
    if s.producer.StoreValue? {
      var block: nat, after: int :| Publishes(s, s.producer.job, s.producer.need, block, after, s');
      PublishHeld(s, s.producer.job, s.producer.need, block, after, s');
    } else {
      assert s'.order == s.order && s'.life == s.life && s'.pool == s.pool && s'.consumers == s.consumers;
    }
  }

  lemma ClaimHeld(s: State, t: nat, n: nat, s': State)
    requires Held(s) && t < |s.consumers| && Claims(s, t, n, s') && |s.claims| == s.head
    ensures Held(s')
  {
    hide InUse;
  }

  lemma MoveHeld(s: State, t: nat, p: Consumer)
    requires Held(s) && t < |s.consumers| && Low(s.consumers[t]) == Low(p) && High(s.consumers[t]) == High(p)
    requires !s.consumers[t].StoreNull? && !s.consumers[t].FreeBlock?
    ensures Held(Goes(s, t, p))
  {
    hide InUse, Low, High;
  }

  /** A step of a consumer that counts its indices up to `to`, or ages block number k, or frees it. */
  lemma AgeHeld(s: State, t: nat, s': State, k: nat, l: Life)
    requires Held(s) && t < |s.consumers| == |s'.consumers| && k < |s.life| && |s.claims| == |s'.claims|
    requires s'.order == s.order && s'.claims == s.claims && s'.life == s.life[k := l] && s.done <= s'.done
             && s.pool <= s'.pool
    requires forall u :: 0 <= u < |s.consumers| && u != t ==> s'.consumers[u] == s.consumers[u]
    requires forall x: nat :: Holds(s.consumers, t, x) && x !in s'.done ==> Holds(s'.consumers, t, x)
    requires l == Returned ==> s.order[k] in s'.pool
    requires (s.consumers[t].StoreNull? || s.consumers[t].FreeBlock?) ==> s.consumers[t].k == k
    requires Tended(s'.consumers, l, k)
    ensures Held(s')
  {
    hide InUse, Low, High;
    forall j | 0 <= j < |s'.order| ensures s'.order[j] in s'.pool || InUse(s'.order, s'.life, s'.order[j]) {
      if s.order[j] !in s'.pool {
        InUseAged(s.order, s.life, k, l, s.order[j]);
      }
    }
  }

  lemma ConsumerHeld(s: State, t: nat, s': State)
    requires Held(s) && Inv(s) && t < |s.consumers| && s.b > 0 && ConsumerStep(s, t, s')
    ensures Held(s')
  {
    hide Core, Held, InUse, Slot, SlotFrom, Blk, Off, Base;
    assert ConsumerOk(s, t);
    HasCounts(s);
    var c := s.consumers[t];
    match c {
      case Away =>
        var n: nat :| Claims(s, t, n, s');
        ClaimHeld(s, t, n, s');
      case AddCount(_, _, _, _, _, _, _) => CountHeld(s, t, s');
      case StoreNull(k, _, _, _, _, _, _) => AgeHeld(s, t, s', k, Nulled(t));
      case FreeBlock(k, _, _, _, _, _) => AgeHeld(s, t, s', k, Returned);
      case Read(_, _, _, _, _, _, _) => ReadHeld(s, t, s');
      case _ => MoveHeld(s, t, s'.consumers[t]);
    }
  }

  lemma ReadHeld(s: State, t: nat, s': State)
    requires Held(s) && t < |s.consumers| && s.b > 0 && s.consumers[t].Read? && ConsumerStep(s, t, s')
    ensures Held(s')
  {
    hide InUse, Slot, Blk, Off;
    MoveHeld(s, t, s'.consumers[t]);
  }

  lemma CountHeld(s: State, t: nat, s': State)
    requires Held(s) && Inv(s) && t < |s.consumers| && s.b > 0 && s.consumers[t].AddCount? && ConsumerStep(s, t, s')
    ensures Held(s')
  {
    hide Core, Held, InUse, Slot, Blk, Off;
    assert ConsumerOk(s, t);
    var k := Blk(s.consumers[t].from, s.b);
    AddCountCore(s, t, s');
    AgeHeld(s, t, s', k, s'.life[k]);
  }

  lemma {:induction false} RunHeld(run: seq<State>)
    requires Run(run)
    ensures Held(run[|run| - 1])
  {
    hide Inv, Held, Fits, Init, ProducerStep, ConsumerStep;
    if |run| == 1 {
      InitHeld(run[0]);
    } else {
      var shorter := run[..|run| - 1];
      RunHeld(shorter);
      RunInv(shorter);
      var s, s' := run[|run| - 2], run[|run| - 1];
      assert Next(s, s');
      if ProducerStep(s, s') {
        ProducerHeld(s, s');
      } else {
        var t: nat :| t < |s.consumers| && ConsumerStep(s, t, s');
        ConsumerHeld(s, t, s');
      }
    }
  }

  lemma InitHeld(s: State)
    requires Init(s)
    ensures Held(s)
  {
  }

  // ------------------------------------------------------------ main results

  /** In every reachable state, whatever the index has grown to since the consumer loaded its array:
      the slot a consumer computes holds the entry with the base of its index as key, and the entry
      holds the block that index was written to. */
  lemma SlotNamesBlock(s: State, t: nat)
    requires Reachable(s) && t < |s.consumers| && s.consumers[t].LoadValue?
    ensures var c := s.consumers[t];
            && s.b > 0 && 0 <= Blk(c.i, s.b) < |s.order|
            && c.h < |s.headers| && c.slot < |s.headers[c.h].index| && s.headers[c.h].index[c.slot] < |s.entries|
            && var e := s.entries[s.headers[c.h].index[c.slot]];
              e.key == Word(c.i - Off(c.i, s.b)) && e.value == s.order[Blk(c.i, s.b)]
  {
    ReachableInv(s);
    hide Inv, Blk, Off, Word;
    FindsItsBlock(s, t);
  }

  /** What was read at an index is what was enqueued there; every index claimed by a consumer that has
      finished was read; and nobody else claimed it. */
  lemma ReadsWhatWasWritten(s: State)
    requires Reachable(s)
    ensures |s.claims| == s.head <= s.tail <= |s.values|
    ensures forall i :: i in s.got ==> i < |s.values| && s.got[i] == s.values[i]
    ensures forall i :: 0 <= i < s.head && s.claims[i] < |s.consumers| && s.consumers[s.claims[i]] == Away ==>
            i in s.got
  {
    ReachableInv(s);
    var run: seq<State> :| Run(run) && run[|run| - 1] == s;
    RunHeld(run);
    hide Slot, Blk, Off, Base, EntriesOk, HeadersOk, OldsOk, LastOk, BlocksOk, Sized, CellsOk, ConsumerOk, ProducerOk,
      Run, Reachable;
    forall i | 0 <= i < s.head && s.claims[i] < |s.consumers| && s.consumers[s.claims[i]] == Away ensures i in s.got {
      assert !Holds(s.consumers, s.claims[i], i);
    }
  }

  /** Counting never takes a block past its size, and fills it exactly when every index of the block
      has been counted. */
  lemma CounterExact(s: State, t: nat)
    requires Reachable(s) && t < |s.consumers| && s.consumers[t].AddCount?
    ensures var c := s.consumers[t];
            && s.b > 0 && c.block < |s.counter| && s.counter[c.block] + (c.to - c.from) <= s.b
            && (s.counter[c.block] + (c.to - c.from) == s.b <==>
                  forall i: nat :: Blk(i, s.b) == Blk(c.from, s.b) ==> i in s.done || c.from <= i < c.to)
  {
    ReachableInv(s);
    hide Slot, Blk, Off, Base, EntriesOk, HeadersOk, OldsOk, LastOk, Sized, CellsOk, DoneOk, ProducerOk, Reachable,
      Count;
    assert ConsumerOk(s, t);
    var c := s.consumers[t];
    var k := Blk(c.from, s.b);
    SameBlock(c.from, c.to - 1, s.b);
    assert BlockOk(s.b, s.order, s.life, s.counter, s.pool, s.done, k);
    BlocksCounted(s.b, s.order, s.life, s.counter, s.pool, s.done, k, c.from, c.to, t);
    CountAdd(s.done, c.from, c.to, k, s.b);
    CountFull(s.done + Range(c.from, c.to), k, s.b);
  }

  /** A block comes out of the pool only when every element it ever held has been read. */
  lemma ReusedAfterRead(s: State, job: Job, need: nat, block: nat, after: int, s': State, i: nat)
    requires Reachable(s) && Sane(s) && Publishes(s, job, need, block, after, s')
    requires 0 <= Blk(i, s.b) < |s.order| && s.order[Blk(i, s.b)] == block
    ensures i < s.head && i in s.done && i in s.got
  {
    ReachableInv(s);
    hide Slot, Off, Base, EntriesOk, HeadersOk, OldsOk, LastOk, Sized, CellsOk, ProducerOk, Reachable, Count, Blk;
    var k := Blk(i, s.b);
    assert BlockOk(s.b, s.order, s.life, s.counter, s.pool, s.done, k);
    CountFull(s.done, k, s.b);
  }

  /** A block is returned once: it is not in the pool yet, nor in use for another block number, and no
      consumer is still reading from it or counting in it. */
  lemma ReturnedOnce(s: State, t: nat, u: nat)
    requires Reachable(s) && t < |s.consumers| && s.consumers[t].FreeBlock? && u < |s.consumers|
    ensures s.consumers[t].block !in s.pool
    ensures s.consumers[u].Read? || s.consumers[u].AddCount? ==> s.consumers[u].block != s.consumers[t].block
    ensures s.consumers[u].StoreNull? || s.consumers[u].FreeBlock? ==>
            u == t || s.consumers[u].block != s.consumers[t].block
  {
    ReachableInv(s);
    hide Slot, Off, Base, EntriesOk, HeadersOk, OldsOk, LastOk, Sized, CellsOk, DoneOk, ProducerOk, Reachable, Count,
      Blk, Reaches;
    assert ConsumerOk(s, t) && ConsumerOk(s, u);
    var k := s.consumers[t].k;
    assert BlockOk(s.b, s.order, s.life, s.counter, s.pool, s.done, k);
    var c := s.consumers[u];
    if c.Read? || c.AddCount? {
      IsOpen(s.b, s.order, s.life, s.counter, s.pool, s.done, c.from);
      BlocksDiffer(s.b, s.order, s.life, s.counter, s.pool, s.done, k, Blk(c.from, s.b));
    } else if (c.StoreNull? || c.FreeBlock?) && u != t {
      BlocksDiffer(s.b, s.order, s.life, s.counter, s.pool, s.done, k, c.k);
    }
  }

  /** With every consumer finished, what was claimed has been counted. */
  lemma AllCounted(s: State)
    requires Held(s) && DoneOk(s.done, s.got, s.values, s.head) && CountsOk(s)
    requires forall t :: 0 <= t < |s.consumers| ==> s.consumers[t] == Away
    ensures forall i: nat :: i in s.done <==> i < s.head
    ensures forall k :: 0 <= k < |s.life| ==> s.life[k] == Open || s.life[k] == Returned
  {
    hide InUse;
    forall i: nat | i < s.head ensures i in s.done {
      assert i !in s.done ==> Holds(s.consumers, s.claims[i], i);
    }
    forall k | 0 <= k < |s.life| ensures s.life[k] == Open || s.life[k] == Returned {
      assert Tended(s.consumers, s.life[k], k);
    }
  }

  lemma AllDoneBelow(done: set<nat>, head: nat, k: nat, b: nat)
    requires b > 0 && forall i: nat :: i in done <==> i < head
    ensures Count(done, k, b) == b <==> k * b + b <= head
  {
    hide Blk, Count;
    CountFull(done, k, b);
    var last: nat := k * b + b - 1;
    InBlock(last, k, b);
    forall i: nat | Blk(i, b) == k ensures i <= last { InBlock(i, k, b); }
  }

  /** No block is lost: each one this producer has used is in the pool, or in use; and once the
      consumers have all finished, the blocks in use are exactly those with an index yet to be
      dequeued. */
  lemma NoBlockLost(s: State)
    requires Reachable(s)
    ensures s.b > 0 && |s.life| == |s.order|
    ensures forall k :: 0 <= k < |s.order| ==> s.order[k] in s.pool || InUse(s.order, s.life, s.order[k])
    ensures (forall t :: 0 <= t < |s.consumers| ==> s.consumers[t] == Away) ==>
              forall k :: 0 <= k < |s.order| ==> (s.life[k] == Returned <==> k * s.b + s.b <= s.head)
  {
    ReachableInv(s);
    var run: seq<State> :| Run(run) && run[|run| - 1] == s;
    RunHeld(run);
    hide Slot, Off, Base, Blk, EntriesOk, HeadersOk, OldsOk, LastOk, Sized, CellsOk, DoneOk, CountsOk, ConsumerOk,
      ProducerOk, Run, Reachable, InUse, Count, Holds, Tended;
    if forall t :: 0 <= t < |s.consumers| ==> s.consumers[t] == Away {
      AllCounted(s);
      forall k | 0 <= k < |s.order| ensures s.life[k] == Returned <==> k * s.b + s.b <= s.head {
        assert BlockOk(s.b, s.order, s.life, s.counter, s.pool, s.done, k);
        AllDoneBelow(s.done, s.head, k, s.b);
        CountFull(s.done, k, s.b);
      }
    }
  }

  /** After the index has grown, the entry the producer turns to is blank, as the code asserts, and
      every block number that had an entry in the old index has it in the new one. */
  lemma GrownEntryBlank(s: State, s': State)
    requires Reachable(s) && Sane(s) && s.producer.Place? && s.producer.need > 0 && ProducerStep(s, s')
    requires Valid(s.entries[NextEntry(s)]) && s.entries[NextEntry(s)].value >= 0
    ensures Sane(s') && !Valid(s'.entries[NextEntry(s')])
    ensures forall k :: 0 <= k < |s.life| && Live(s.life[k]) ==> FindsBlock(Last(s'), s'.entryOf, k)
  {
    ReachableInv(s);
    hide Reachable, Inv, Core, FindsBlock, Live;
    InvCore(s);
    GrowCore(s, s');
    GrownFields(s, s');
    GrownBlank(s);
    FindsAll(s');
  }

  /** What growing the index does to the state. */
  lemma GrownFields(s: State, s': State)
    requires Core(s) && Core(s') && s.producer.Place? && s.producer.need > 0 && ProducerStep(s, s')
    requires Valid(s.entries[NextEntry(s)]) && s.entries[NextEntry(s)].value >= 0
    ensures Sane(s') && Last(s').index == Doubled(Last(s), |s.entries|).index
    ensures s'.producer.StoreKey? && s'.life == s.life
    ensures NextTail(Last(s')) == NextTail(Doubled(Last(s), |s.entries|))
    ensures s'.entries == s.entries + Repeat(Last(s).capacity, Blank)
  {
    hide Blk, Slot, Base, EntriesOk, HeadersOk, OldsOk, LastOk, BlocksOk, Sized, CellsOk, DoneOk, ProducerOk, TailOk,
      Doubled, Repeat;
    DoubledFields(Last(s), |s.entries|);
  }

  lemma GrownBlank(s: State)
    requires Core(s) && s.producer.Place? && Valid(s.entries[NextEntry(s)])
    ensures var d, entries' := Doubled(Last(s), |s.entries|), s.entries + Repeat(Last(s).capacity, Blank);
            NextTail(d) < |d.index| && d.index[NextTail(d)] < |entries'| && !Valid(entries'[d.index[NextTail(d)]])
  {
    hide Blk, Slot, Base, EntriesOk, HeadersOk, OldsOk, LastOk, BlocksOk, Sized, CellsOk, DoneOk, ProducerOk, Doubled,
      KeptAt;
    var last := Last(s);
    assert HeaderOk(last, s.entries, s.entryOf, s.life) by { LastHeader(s.headers, s.entries, s.entryOf, s.life); }
    FullIndex(last, s.entries, s.entryOf, s.life);
    BlankNext(last, s.entries, |s.entryOf|);
  }

  lemma FindsAll(s: State)
    requires Core(s) && s.producer.StoreKey?
    ensures forall k :: 0 <= k < |s.life| && Live(s.life[k]) ==> FindsBlock(Last(s), s.entryOf, k)
  {
    hide Blk, Off, Slot, Base, EntriesOk, OldsOk, LastOk, BlocksOk, Sized, CellsOk, DoneOk, FindsBlock;
    assert |s.life| == |s.order| by { LiveEntries(s.b, s.entries, s.entryOf, s.order, s.life); }
    assert HeaderOk(Last(s), s.entries, s.entryOf, s.life);
  }

  // ------------------------------------------ a call that returns has published

  /** The items of the call under way, if there is one. */
  function Outstanding(p: Producer): seq<Value> {
    if p.Rest? then [] else p.job.items
  }

  ghost predicate Accounted(s: State) {
    && s.head <= s.tail <= |s.values| && s.accepted == s.values[..s.tail] + Outstanding(s.producer)
    && (forall i :: i in s.got ==> i < s.head)
  }

  /** Until its last step a call publishes nothing, and keeps its items. */
  lemma CallGoesOn(s: State, s': State)
    requires Sane(s) && ProducerStep(s, s') && !s.producer.Rest? && !s.producer.ShowTail?
    ensures s'.accepted == s.accepted && Outstanding(s'.producer) == Outstanding(s.producer)
    ensures s'.got == s.got && s'.head == s.head
  {
    hide Blk, Off, Slot, Base, Doubled, Linked, Linking, Stops, Repeat;
    if s.producer.StoreValue? {
      var block: nat, after: int :| Publishes(s, s.producer.job, s.producer.need, block, after, s');
    }
  }

  lemma CallBegins(s: State, s': State)
    requires Sane(s) && s.producer.Rest? && ProducerStep(s, s')
    ensures s' == s.(accepted := s.accepted + Outstanding(s'.producer), producer := s'.producer)
  {
  }

  lemma ProducerAccounted(s: State, s': State)
    requires Inv(s) && Sane(s) && Accounted(s) && ProducerStep(s, s')
    ensures Accounted(s')
  {
    hide Core, ConsumerOk, ProducerStep;
    Shown(s);
    if s.producer.Rest? {
      CallBegins(s, s');
    } else if s.producer.ShowTail? {
      ShowTailStep(s, s');
    } else {
      CallGoesOn(s, s');
      ValuesGrow(s, s');
      assert s'.values[..s.tail] == s'.values[..|s.values|][..s.tail];
    }
  }

  /** A consumer reads at an index it has claimed. */
  lemma ReadsClaimed(s: State, t: nat)
    requires Inv(s) && t < |s.consumers| && s.consumers[t].Read?
    ensures s.consumers[t].i < s.head
  {
    hide Core, Blk, Off, Slot, Reaches, SlotOk, Has;
    HasB(s);
    assert ConsumerOk(s, t);
  }

  /** What a consumer's step does to what is accounted for. */
  ghost predicate Leaves(s: State, t: nat, s': State)
    requires t < |s.consumers|
  {
    && s'.values == s.values && s'.tail == s.tail && s'.producer == s.producer && s'.accepted == s.accepted
    && s.head <= s'.head <= s'.tail
    && forall i :: i in s'.got ==> i in s.got || (s.consumers[t].Read? && i == s.consumers[t].i)
  }

  lemma ClaimLeaves(s: State, t: nat, s': State)
    requires s.b > 0 && s.head <= s.tail && t < |s.consumers| && s.consumers[t].Away? && ConsumerStep(s, t, s')
    ensures Leaves(s, t, s')
  {
  }

  lemma LoadLeaves(s: State, t: nat, s': State)
    requires s.b > 0 && s.head <= s.tail && t < |s.consumers| && ConsumerStep(s, t, s')
    requires var c := s.consumers[t]; c.LoadHeader? || c.LoadTail? || c.LoadKey? || c.LoadValue?
    ensures Leaves(s, t, s')
  {
    hide Blk, Off, Slot, SlotFrom, Word;
  }

  lemma UseLeaves(s: State, t: nat, s': State)
    requires s.b > 0 && s.head <= s.tail && t < |s.consumers| && ConsumerStep(s, t, s')
    requires var c := s.consumers[t]; c.Read? || c.AddCount? || c.StoreNull? || c.FreeBlock?
    ensures Leaves(s, t, s')
  {
    hide Blk, Off, Onward, Range;
  }

  lemma ConsumerLeaves(s: State, t: nat, s': State)
    requires s.b > 0 && s.head <= s.tail && t < |s.consumers| && ConsumerStep(s, t, s')
    ensures Leaves(s, t, s')
  {
    hide ConsumerStep, Leaves;
    var c := s.consumers[t];
    if c.Away? {
      ClaimLeaves(s, t, s');
    } else if c.LoadHeader? || c.LoadTail? || c.LoadKey? || c.LoadValue? {
      LoadLeaves(s, t, s');
    } else {
      UseLeaves(s, t, s');
    }
  }

  lemma ConsumerAccounted(s: State, t: nat, s': State)
    requires Inv(s) && s.b > 0 && Accounted(s) && t < |s.consumers| && ConsumerStep(s, t, s')
    ensures Accounted(s')
  {
    hide Inv, ConsumerStep;
    ConsumerLeaves(s, t, s');
    if s.consumers[t].Read? {
      ReadsClaimed(s, t);
    }
  }

  lemma {:induction false} RunAccounted(run: seq<State>)
    requires Run(run)
    ensures Accounted(run[|run| - 1])
  {
    hide Inv, Accounted, Fits, Init, ProducerStep, ConsumerStep;
    if |run| == 1 {
      InitAccounted(run[0]);
    } else {
      var shorter := run[..|run| - 1];
      RunAccounted(shorter);
      RunInv(shorter);
      var s, s' := run[|run| - 2], run[|run| - 1];
      assert Next(s, s');
      if ProducerStep(s, s') {
        ProducerAccounted(s, s');
      } else {
        var t: nat :| t < |s.consumers| && ConsumerStep(s, t, s');
        ConsumerAccounted(s, t, s');
      }
    }
  }

  lemma InitAccounted(s: State)
    requires Init(s)
    ensures Accounted(s)
  {
  }

  /** Between calls everything accepted so far is published, in order; during a call, all but the items
      of that call, which are the last.  What is read at an index is the item accepted there. */
  lemma AcceptedIsPublished(s: State)
    requires Reachable(s)
    ensures s.tail <= |s.values| && s.accepted == s.values[..s.tail] + Outstanding(s.producer)
    ensures s.producer == Rest ==> s.values[..s.tail] == s.accepted
    ensures forall i :: i in s.got ==> i < |s.accepted| && s.got[i] == s.accepted[i]
  {
    var run: seq<State> :| Run(run) && run[|run| - 1] == s;
    RunAccounted(run);
    hide Run, Reachable;
    ReadsWhatWasWritten(s);
    forall i | i in s.got ensures i < |s.accepted| && s.got[i] == s.accepted[i] {
      assert s.got[i] == s.values[i];
    }
  }

  /** The walk along the next pointers comes to the block that the index names for each element, and
      to endBlock exactly with the last stretch of the items, as the code asserts. */
  lemma ChainIsOrder(s: State)
    requires Reachable(s) && s.producer.Write?
    ensures var job, n := s.producer.job, s.producer.n;
            && s.b > 0 && AtBlock(s, s.tail + n)
            && (Stops(s, job, n) ==> (s.tailBlock == job.end <==> n + 1 == |job.items|))
  {
    ReachableInv(s);
    hide Reachable, Inv, Core, AtBlock, Stops;
    InvCore(s);
    HasB(s);
    WritesAtBlock(s);
    if Stops(s, s.producer.job, s.producer.n) {
      WalksOn(s);
    }
  }

  lemma InvCore(s: State)
    requires Inv(s)
    ensures Core(s)
  {
  }

  lemma WritesAtBlock(s: State)
    requires Core(s) && s.producer.Write?
    ensures s.b > 0 && AtBlock(s, s.tail + s.producer.n)
  {
    hide Blk, Off, Slot, Base, EntriesOk, HeadersOk, OldsOk, LastOk, BlocksOk, Sized, CellsOk, DoneOk, TailOk;
  }

  /** A block whose next pointer is written is the producer's own: not in the pool, with an index yet to
      be consumed, and not the block that is being added. */
  lemma LinksOwnBlock(s: State, block: nat, after: int, s': State)
    requires Reachable(s) && Sane(s) && s.producer.StoreValue?
    requires Publishes(s, s.producer.job, s.producer.need, block, after, s') && Linking(s, s.producer.job)
    ensures s.tailBlock >= 0 && s.tailBlock !in s.pool && s.tailBlock != block
    ensures |s.life| == |s.order| > 0 && s.tailBlock == s.order[|s.order| - 1] && s.life[|s.order| - 1] == Open
  {
    ReachableInv(s);
    hide Blk, Off, Slot, Base, Count, EntriesOk, HeadersOk, OldsOk, LastOk, BlocksOk, Sized, CellsOk, DoneOk,
      ConsumerOk, Reachable, JobOn, Linked, Linking;
    JobMore(s, s.producer.job, block, after);
    OpenFrom(s, |s.order| - 1);
  }

  lemma ValuesKept(s: State, t: nat, s': State)
    requires s.b > 0 && t < |s.consumers| && ConsumerStep(s, t, s')
    ensures s'.values == s.values && s'.tail == s.tail
  {
    hide Blk, Off, Slot, SlotFrom;
  }

  lemma ValuesGrow(s: State, s': State)
    requires Sane(s) && ProducerStep(s, s') && !s.producer.ShowTail?
    ensures |s.values| <= |s'.values| && s'.values[..|s.values|] == s.values && s'.tail == s.tail
  {
    hide Blk, Off, Slot, Base, Doubled, Linked, Linking, Stops, Repeat;
    if s.producer.StoreValue? {
      var block: nat, after: int :| Publishes(s, s.producer.job, s.producer.need, block, after, s');
    } else if !s.producer.Write? {
      assert s'.values == s.values;
    }
  }

  lemma Shown(s: State)
    requires Core(s)
    ensures s.tail <= |s.values|
    ensures s.producer.ShowTail? ==> s.values == s.values[..s.tail] + s.producer.job.items
  {
    hide Blk, Off, Slot, Base, EntriesOk, HeadersOk, OldsOk, LastOk, BlocksOk, Sized, CellsOk, DoneOk, TailOk,
      FreeNext, KeyedLast;
    assert s.values == s.values[..s.tail] + s.values[s.tail..];
  }

  /** Publishing the tail adds exactly the items of the call, in order, to what consumers may claim; no
      other step changes that. */
  lemma TailPublishesItems(s: State, s': State)
    requires Reachable(s) && Next(s, s')
    ensures s.tail <= |s.values| && s'.tail <= |s'.values|
    ensures s'.values[..s'.tail] == s.values[..s.tail] + if s'.tail == s.tail then [] else s.producer.job.items
    ensures s'.tail != s.tail ==> s.producer.ShowTail?
  {
    ReachableInv(s);
    hide Reachable, Core, ConsumerOk, ProducerStep, ConsumerStep;
    Shown(s);
    if !ProducerStep(s, s') {
      var t: nat :| t < |s.consumers| && ConsumerStep(s, t, s');
      ValuesKept(s, t, s');
    } else if s.producer.ShowTail? {
      assert s' == s.(tail := s.tail + |s.producer.job.items|, producer := Rest) by { ShowTailStep(s, s'); }
    } else {
      ValuesGrow(s, s');
      assert s'.values[..s.tail] == s'.values[..|s.values|][..s.tail];
    }
  }

  lemma ShowTailStep(s: State, s': State)
    requires Sane(s) && s.producer.ShowTail? && ProducerStep(s, s')
    ensures s' == s.(tail := s.tail + |s.producer.job.items|, producer := Rest)
  {
  }

  lemma CanLoadHeader(s: State, t: nat) returns (s': State)
    requires Core(s) && t < |s.consumers| && s.consumers[t].LoadHeader?
    ensures s.b > 0 && ConsumerStep(s, t, s')
  {
    hide Blk, EntriesOk, HeadersOk, OldsOk, LastOk, BlocksOk, Sized, CellsOk, DoneOk, ProducerOk;
    s' := Goes(s, t, LoadTail(s.consumers[t].i, s.consumers[t].end, |s.headers| - 1));
  }

  lemma CanLoadTail(s: State, t: nat) returns (s': State)
    requires s.b > 0 && t < |s.consumers| && s.consumers[t].LoadTail? && ConsumerOk(s, t)
    ensures ConsumerStep(s, t, s')
  {
    hide Blk, Owns;
    var c := s.consumers[t];
    s' := Goes(s, t, LoadKey(c.i, c.end, c.h, s.headers[c.h].tail));
  }

  lemma HasCapacity(s: State, h: nat)
    requires Core(s) && h < |s.headers|
    ensures s.headers[h].capacity > 0
  {
    hide EntriesOk, OldsOk, LastOk, BlocksOk, Sized, CellsOk, DoneOk, ProducerOk;
    assert HeaderOk(s.headers[h], s.entries, s.entryOf, s.life);
  }

  lemma CanLoadKey(s: State, t: nat) returns (s': State)
    requires Core(s) && s.b > 0 && t < |s.consumers| && s.consumers[t].LoadKey? && ConsumerOk(s, t)
    ensures ConsumerStep(s, t, s')
  {
    hide Core, Blk, Off, Slot, Base, SlotFrom, Owns;
    var c := s.consumers[t];
    HasCapacity(s, c.h);
    var header := s.headers[c.h];
    var key := s.entries[header.index[c.t]].key;
    s' := Goes(s, t, LoadValue(c.i, c.end, c.h, SlotFrom(c.t, Word(c.i - Off(c.i, s.b)), key, s.b, header.capacity)));
  }

  lemma CanLoadValue(s: State, t: nat) returns (s': State)
    requires Inv(s) && s.b > 0 && t < |s.consumers| && s.consumers[t].LoadValue?
    ensures ConsumerStep(s, t, s')
  {
    hide Inv, Blk, Off, Slot, Word;
    var c := s.consumers[t];
    FindsItsBlock(s, t);
    var e := s.headers[c.h].index[c.slot];
    s' := Goes(s, t, Read(c.i, c.i, c.end, c.h, c.slot, e, s.entries[e].value));
  }

  lemma CanRead(s: State, t: nat) returns (s': State)
    requires Inv(s) && t < |s.consumers| && s.b > 0 && s.consumers[t].Read?
    ensures ConsumerStep(s, t, s')
  {
    hide Blk, Off, Slot, Base, EntriesOk, HeadersOk, OldsOk, LastOk, BlocksOk, Sized, DoneOk, ProducerOk, TailOk,
      FreeNext, KeyedLast;
    assert ConsumerOk(s, t);
    var c := s.consumers[t];
    assert CellOk(s.b, s.cells, s.order, s.values, c.i);
    var next := if c.i + 1 == c.end || Off(c.i + 1, s.b) == 0
                then AddCount(c.from, c.i + 1, c.end, c.h, c.slot, c.e, c.block)
                else Read(c.from, c.i + 1, c.end, c.h, c.slot, c.e, c.block);
    s' := Goes(s, t, next).(got := s.got[c.i := s.cells[c.block][Off(c.i, s.b)]]);
  }

  lemma HasCounter(s: State, k: nat)
    requires Core(s) && k < |s.order|
    ensures |s.life| == |s.order| && s.order[k] < |s.counter| == |s.cells| && |s.cells[s.order[k]]| == s.b
  {
    hide Blk, Off, Slot, Base, Count, EntriesOk, HeadersOk, OldsOk, LastOk, CellsOk, DoneOk, ProducerOk, TailOk,
      FreeNext, KeyedLast;
    assert BlockOk(s.b, s.order, s.life, s.counter, s.pool, s.done, k);
  }

  lemma CanCount(s: State, t: nat) returns (s': State)
    requires Core(s) && t < |s.consumers| && s.b > 0 && s.consumers[t].AddCount? && ConsumerOk(s, t)
    ensures ConsumerStep(s, t, s')
  {
    hide Core, Blk, Off, Slot, Owns, Range;
    var c := s.consumers[t];
    var k := Blk(c.from, s.b);
    HasCounter(s, k);
    var full := s.counter[c.block] + (c.to - c.from) == s.b;
    var next := if full then StoreNull(k, c.to, c.end, c.h, c.slot, c.e, c.block)
                else Onward(c.to, c.end, c.h, c.slot, s.headers[c.h].capacity);
    s' := Goes(s, t, next).(
      counter := s.counter[c.block := s.counter[c.block] + (c.to - c.from)],
      done := s.done + Range(c.from, c.to),
      life := if full then s.life[k := Closing(t)] else s.life);
  }

  lemma ClosingPlaced(b: nat, entries: seq<Entry>, entryOf: seq<nat>, order: seq<nat>, life: seq<Life>, k: nat)
    requires EntriesOk(b, entries, entryOf, order, life) && k < |life| && life[k].Closing?
    ensures k < |entryOf| && entryOf[k] < |entries|
  {
    assert Placed(b, entries, entryOf, order, k);
  }

  lemma CanNull(s: State, t: nat) returns (s': State)
    requires Core(s) && t < |s.consumers| && s.b > 0 && s.consumers[t].StoreNull? && ConsumerOk(s, t)
    ensures ConsumerStep(s, t, s')
  {
    hide Blk, Off, Slot, Base, EntriesOk, HeadersOk, OldsOk, LastOk, BlocksOk, Sized, CellsOk, DoneOk, ProducerOk,
      TailOk, FreeNext, KeyedLast;
    var c := s.consumers[t];
    ClosingPlaced(s.b, s.entries, s.entryOf, s.order, s.life, c.k);
    s' := Goes(s, t, FreeBlock(c.k, c.to, c.end, c.h, c.slot, c.block)).(
      entries := s.entries[c.e := s.entries[c.e].(value := -1)], life := s.life[c.k := Nulled(t)]);
  }

  lemma CanFree(s: State, t: nat) returns (s': State)
    requires t < |s.consumers| && s.b > 0 && s.consumers[t].FreeBlock? && ConsumerOk(s, t)
    ensures ConsumerStep(s, t, s')
  {
    hide Blk, Slot, Owns;
    var c := s.consumers[t];
    s' := Goes(s, t, Onward(c.to, c.end, c.h, c.slot, s.headers[c.h].capacity)).(
      pool := s.pool + {c.block}, life := s.life[c.k := Returned]);
  }

  /** No pointer a consumer follows leads astray: each dequeue under way has a next step. */
  lemma ConsumerNotStuck(s: State, t: nat) returns (s': State)
    requires Reachable(s) && t < |s.consumers| && s.consumers[t] != Away
    ensures s.b > 0 && ConsumerStep(s, t, s')
  {
    ReachableInv(s);
    HasB(s);
    assert ConsumerOk(s, t);
    hide *;
    match s.consumers[t] {
      case LoadHeader(_, _) => s' := CanLoadHeader(s, t);
      case LoadTail(_, _, _) => s' := CanLoadTail(s, t);
      case LoadKey(_, _, _, _) => s' := CanLoadKey(s, t);
      case LoadValue(_, _, _, _) => s' := CanLoadValue(s, t);
      case Read(_, _, _, _, _, _, _) => s' := CanRead(s, t);
      case AddCount(_, _, _, _, _, _, _) => s' := CanCount(s, t);
      case StoreNull(_, _, _, _, _, _, _) => s' := CanNull(s, t);
      case FreeBlock(_, _, _, _, _, _) => s' := CanFree(s, t);
    }
  }

  lemma CanPlace(s: State) returns (s': State)
    requires Sane(s) && (s.producer.Place? || s.producer.ShowTail?)
    ensures ProducerStep(s, s')
  {
    hide Blk, Slot, Base, Doubled, Repeat;
    match s.producer {
      case ShowTail(job) => s' := s.(tail := s.tail + |job.items|, producer := Rest);
      case Place(job, need) =>
        if need == 0 && job.items == [] {
          s' := s.(producer := ShowTail(job));
        } else if need == 0 {
          s' := s.(producer := Write(job, 0),
                   tailBlock := if Off(s.tail, s.b) == 0 && job.first >= 0 then job.first else job.start);
        } else if !Valid(s.entries[NextEntry(s)]) || s.entries[NextEntry(s)].value < 0 {
          s' := s.(producer := StoreKey(job, need));
        } else {
          s' := s.(
            entries := s.entries + Repeat(Last(s).capacity, Blank),
            headers := s.headers + [Doubled(Last(s), |s.entries|)],
            producer := StoreKey(job, need));
        }
    }
  }

  lemma CanStoreKey(s: State) returns (s': State)
    requires Core(s) && s.producer.StoreKey?
    ensures ProducerStep(s, s')
  {
    hide Blk, Off, Slot, Base, EntriesOk, HeadersOk, OldsOk, LastOk, BlocksOk, Sized, CellsOk, DoneOk, TailOk,
      FreeNext, KeyedLast;
    var job, need := s.producer.job, s.producer.need;
    var e, k := NextEntry(s), Used(s.tail + |job.items|, s.b) - need;
    s' := s.(
      entries := s.entries[e := s.entries[e].(key := Base(k, s.b), num := |s.entryOf|)],
      entryOf := s.entryOf + [e],
      producer := StoreTail(job, need));
  }

  lemma CanStoreTail(s: State) returns (s': State)
    requires Sane(s) && s.producer.StoreTail?
    ensures ProducerStep(s, s')
  {
    hide Slot;
    s' := s.(
      headers := s.headers[|s.headers| - 1 := Last(s).(tail := NextTail(Last(s)), newest := Last(s).newest + 1)],
      producer := StoreValue(s.producer.job, s.producer.need));
  }

  lemma CanPublish(s: State) returns (s': State)
    requires Core(s) && s.producer.StoreValue?
    ensures Sane(s) && ProducerStep(s, s')
  {
    hide Blk, Off, Slot, Base, EntriesOk, HeadersOk, OldsOk, LastOk, BlocksOk, CellsOk, DoneOk, FreeNext, JobOn,
      Linked, Linking;
    var job, need := s.producer.job, s.producer.need;
    var e, block := s.entryOf[|s.entryOf| - 1], |s.cells|;
    JobMore(s, job, block, -1);
    s' := s.(
      cells := s.cells + [Repeat(s.b, 0)], counter := s.counter + [0], next := Linked(s, job, block, -1),
      pool := s.pool - {block}, tailBlock := block,
      entries := s.entries[e := s.entries[e].(value := block)],
      order := s.order + [block], life := s.life + [Open],
      producer := Place(Extended(job, block), need - 1));
    assert Publishes(s, job, need, block, -1, s');
  }

  lemma CanWrite(s: State) returns (s': State)
    requires Core(s) && s.producer.Write?
    ensures Sane(s) && ProducerStep(s, s')
  {
    hide Blk, Off, Slot, Base, Count, EntriesOk, HeadersOk, OldsOk, LastOk, BlocksOk, Sized, CellsOk, DoneOk, TailOk,
      JobOn, Stops;
    var job, n := s.producer.job, s.producer.n;
    HasCounter(s, Blk(s.tail + n, s.b));
    var stops := Stops(s, job, n);
    s' := s.(
      cells := s.cells[s.tailBlock := s.cells[s.tailBlock][Off(s.tail + n, s.b) := job.items[n]]],
      values := s.values + [job.items[n]],
      tailBlock := if stops && s.tailBlock != job.end then s.next[s.tailBlock] else s.tailBlock,
      producer := if stops && s.tailBlock == job.end then ShowTail(job) else Write(job, n + 1));
  }

  /** Nor does one the producer follows. */
  lemma ProducerNotStuck(s: State) returns (s': State)
    requires Reachable(s) && s.producer != Rest
    ensures Sane(s) && ProducerStep(s, s')
  {
    ReachableInv(s);
    assert Core(s) && Sane(s);
    hide *;
    match s.producer {
      case Place(_, _) => s' := CanPlace(s);
      case StoreKey(_, _) => s' := CanStoreKey(s);
      case StoreTail(_, _) => s' := CanStoreTail(s);
      case StoreValue(_, _) => s' := CanPublish(s);
      case Write(_, _) => s' := CanWrite(s);
      case ShowTail(_) => s' := CanPlace(s);
    }
  }
}
