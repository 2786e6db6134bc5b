/** An explicit producer's blocks: a circular list of blocks, and a circular index, doubled when it
    is full, through which consumers find the block of the element index they were granted.

    One producer enqueues, singly or in bulk (a single enqueue is a bulk of one); any number of
    consumers each process the ranges of indices the ticket protocol hands them.  Each step is one
    access to shared memory.  The fields after `consumers` and the last four of a header are
    history, read by no step. */
module BlockIndex {
  import opened Blocks
  import opened Words

  type Value = int

  datatype Entry = Entry(base: int, block: nat)

  /** `front` is the slot of a published entry.  `origin` is the block number whose slot is 0; the
      entries of blocks lo to hi are in place, and front is the slot of block `shown`. */
  datatype Header = Header(size: nat, front: int, entries: seq<Entry>, origin: int, lo: int, hi: int, shown: int)

  /** The locals of one enqueue: firstAllocatedBlock and startBlock (-1 for null), and the value of
      pr_blockIndexSlotsUsed when it began. */
  datatype Job = Job(items: seq<Value>, first: int, orig: nat, start: int)

  datatype Producer =
    | Rest
    | Obtain(job: Job, need: nat)             // decide how to get the next block
    | StoreBase(job: Job, need: nat)          // write its index entry: the base,
    | StoreBlock(job: Job, need: nat)         //   then the block
    | Reset(job: Job, cur: nat)               // clear the empty flags of the obtained blocks
    | ShowFront(job: Job)                     // publish the new front of the index
    | Write(job: Job, n: nat, block: nat)     // construct element n
    | ShowTail(job: Job)                      // publish tailIndex

  datatype Consumer =
    | Away
    | LoadHeader(i: nat, end: nat)
    | LoadFront(i: nat, end: nat, h: nat)
    | LoadBase(i: nat, end: nat, h: nat, f: int)
    | LoadBlock(i: nat, end: nat, h: nat, slot: nat)
    | Read(from: nat, i: nat, end: nat, h: nat, slot: nat, block: nat)
    | SetEmpty(from: nat, to: nat, n: nat, end: nat, h: nat, slot: nat, block: nat)   // n flags set

  datatype State = State(
    b: nat,                          // BLOCK_SIZE
    tail: nat, head: nat,
    cells: seq<seq<Value>>, empty: seq<seq<bool>>, next: seq<nat>, tailBlock: int,
    headers: seq<Header>, used: nat, size: nat, front: int,   // pr_blockIndexSlotsUsed, Size, Front
    producer: Producer, consumers: seq<Consumer>,
    values: seq<Value>,              // every element, in the order written
    order: seq<nat>,                 // the block used for block number k
    ready: nat,                      // blocks whose flags have been cleared
    claims: seq<nat>,                // the consumer of each claimed index
    got: map<nat, Value>,            // what it read there
    done: set<nat>,                  // indices whose flag has been set
    accepted: seq<Value>)            // the items of all enqueue calls begun, in order

  const InitialSize := 32

  ghost predicate Init(s: State) {
    && s.b > 0
    && s.tail == s.head == s.used == s.front == s.ready == 0
    && s.cells == [] && s.empty == [] && s.next == [] && s.tailBlock == -1
    && s.size == InitialSize
    && |s.headers| == 1 && |s.headers[0].entries| == InitialSize
    && s.headers[0] == Header(InitialSize, Word(-1), s.headers[0].entries, 0, 0, 0, -1)
    && s.producer == Rest && (forall t :: 0 <= t < |s.consumers| ==> s.consumers[t] == Away)
    && s.values == [] && s.order == [] && s.claims == [] && s.got == map[] && s.done == {} && s.accepted == []
  }

  // ------------------------------------------------------------ the producer

  function Last(s: State): Header
    requires |s.headers| > 0
  {
    s.headers[|s.headers| - 1]
  }

  function WithLast(s: State, h: Header): State
    requires |s.headers| > 0
  {
    s.(headers := s.headers[|s.headers| - 1 := h])
  }

  predicate AllTrue(flags: seq<bool>) {
    forall j :: 0 <= j < |flags| ==> flags[j]
  }

  function Repeat<T>(n: nat, x: T): seq<T> {
    seq(n, _ => x)
  }

  /** The pointers a step follows lead somewhere. */
  predicate Sane(s: State) {
    && s.b > 0 && |s.headers| > 0 && s.size > 0
    && |s.cells| == |s.empty| == |s.next|
    && (s.tailBlock >= 0 ==> s.tailBlock < |s.next| && s.next[s.tailBlock] < |s.next|)
  }

  /** The block after the tail block can be used again. */
  predicate CanReuse(s: State, job: Job)
    requires Sane(s)
  {
    s.tailBlock >= 0 && s.next[s.tailBlock] != job.first && AllTrue(s.empty[s.next[s.tailBlock]])
  }

  function FirstOr(job: Job, block: nat): Job {
    if job.first < 0 then job.(first := block) else job
  }

  /** The number of the block being added: what the code keeps as currentTailIndex. */
  function Adding(s: State, job: Job, need: nat): int
    requires s.b > 0
  {
    Used(s.tail + |job.items|, s.b) - need
  }

  ghost predicate BeginEnqueue(s: State, items: seq<Value>, s': State)
    requires Sane(s)
  {
    && s.producer == Rest
    && Used(s.tail + |items|, s.b) >= Used(s.tail, s.b)
    && s' == s.(
      accepted := s.accepted + items,
      producer := Obtain(Job(items, -1, s.used, s.tailBlock), Used(s.tail + |items|, s.b) - Used(s.tail, s.b)))
  }

  ghost predicate Reuses(s: State, job: Job, need: nat, s': State)
    requires Sane(s)
  {
    && need > 0 && CanReuse(s, job)
    && var block := s.next[s.tailBlock];
      s' == WithLast(s, Last(s).(lo := Last(s).lo + 1)).(
        tailBlock := block, order := s.order + [block],
        producer := StoreBase(FirstOr(job, block), need))
  }

  /** new_block_index: the new array starts with the entries in use, oldest first. */
  ghost predicate Doubled(s: State, entries: seq<Entry>)
    requires Sane(s)
  {
    && |entries| == 2 * s.size && |Last(s).entries| == s.size && s.used <= s.size
    && forall j :: 0 <= j < s.used ==> entries[j] == Last(s).entries[Slot(s.front - s.used + j, s.size)]
  }

  ghost predicate Grows(s: State, job: Job, need: nat, s': State)
    requires Sane(s)
  {
    && need > 0 && !CanReuse(s, job) && s.used == s.size
    && |s'.headers| == |s.headers| + 1
    && var entries := s'.headers[|s.headers|].entries;
       var origin := |s.order| - s.used;
      && Doubled(s, entries)
      && s' == s.(
        size := 2 * s.size, front := s.used,
        headers := s.headers + [Header(2 * s.size, Word(job.orig - 1), entries, origin, origin, |s.order|,
          origin + job.orig - 1)])
  }

  /** The copy loop of new_block_index.  The test at its end is right even when the old index is
      full, and the first slot to copy is also the one to stop at. */
  method CopyIndex(old': array<Entry>, front: nat, used: nat) returns (bigger: seq<Entry>, j: nat)
    requires 0 < used <= old'.Length && front < old'.Length
    ensures |bigger| == 2 * old'.Length && j == used
    ensures forall k :: 0 <= k < used ==> bigger[k] == old'[Slot(front - used + k, old'.Length)]
  {
    var size := old'.Length;
    var entries := new Entry[2 * size](_ => Entry(0, 0));
    var i := Slot(front - used, size);
    entries[0] := old'[i];
    j, i := 1, Slot(i + 1, size);
    SlotShift(front - used, 1, size);
    while i != front
      invariant 1 <= j <= used && i == Slot(front - used + j, size)
      invariant forall k :: 0 <= k < j ==> entries[k] == old'[Slot(front - used + k, size)]
      decreases used - j
    {
      SlotSmall(front, size);
      entries[j] := old'[i];
      SlotShift(front - used + j, 1, size);
      j, i := j + 1, Slot(i + 1, size);
    }
    SlotSmall(front, size);
    if j < used {
      SlotsDistinct(front - used + j, front, size);
    }
    bigger := entries[..];
  }

  /** requisition_block gives a block that no producer uses, with anything in it. */
  ghost predicate AddsBlock(s: State, job: Job, need: nat, s': State)
    requires Sane(s)
  {
    && need > 0 && !CanReuse(s, job) && s.used != s.size
    && |s'.cells| == |s.cells| + 1 && |s'.cells[|s.cells|]| == s.b
    && var block := |s.cells|;
       var next := if s.tailBlock < 0 then s.next + [block]
                   else (s.next + [s.next[s.tailBlock]])[s.tailBlock := block];
      s' == s.(
        cells := s.cells + [s'.cells[block]], empty := s.empty + [Repeat(s.b, true)], next := next,
        tailBlock := block, used := s.used + 1, order := s.order + [block],
        producer := StoreBase(FirstOr(job, block), need))
  }

  function SetEntry(h: Header, slot: int, e: Entry): Header {
    if 0 <= slot < |h.entries| then h.(entries := h.entries[slot := e]) else h
  }

  function EntryAt(h: Header, slot: int): Entry {
    if 0 <= slot < |h.entries| then h.entries[slot] else Entry(0, 0)
  }

  ghost predicate ProducerStep(s: State, s': State)
    requires Sane(s)
  {
    match s.producer
    case Rest => exists items: seq<Value> :: BeginEnqueue(s, items, s')
    case Obtain(job, need) =>
      if need == 0
      then
        && (job.items == [] || job.first >= 0 || job.start >= 0)
        && s' == s.(producer := if job.items == [] then ShowTail(job)
                                else if job.first >= 0 then Reset(job, job.first)
                                else Write(job, 0, job.start))
      else Reuses(s, job, need, s') || Grows(s, job, need, s') || AddsBlock(s, job, need, s')
    case StoreBase(job, need) =>
      && 0 <= s.front < |Last(s).entries|
      && var e := EntryAt(Last(s), s.front).(base := Base(Adding(s, job, need), s.b));
        s' == WithLast(s, SetEntry(Last(s), s.front, e)).(producer := StoreBlock(job, need))
    case StoreBlock(job, need) =>
      && need > 0 && s.tailBlock >= 0 && 0 <= s.front < |Last(s).entries|
      && var e := EntryAt(Last(s), s.front).(block := s.tailBlock);
        s' == WithLast(s, SetEntry(Last(s), s.front, e).(hi := Last(s).hi + 1)).(
          front := Slot(s.front + 1, s.size), producer := Obtain(job, need - 1))
    case Reset(job, cur) =>
      && cur < |s.empty|
      && s' == s.(
        empty := s.empty[cur := Repeat(s.b, false)], ready := s.ready + 1,
        producer := if cur == s.tailBlock then ShowFront(job) else Reset(job, s.next[cur]))
    case ShowFront(job) =>
      && job.first >= 0
      && s' == WithLast(s, Last(s).(front := Slot(s.front - 1, s.size), shown := |s.order| - 1)).(
        producer := Write(job, 0, if Off(s.tail, s.b) == 0 || job.start < 0 then job.first else job.start))
    case Write(job, n, block) =>
      && n < |job.items| && block < |s.cells| && |s.cells[block]| == s.b
      && var i := s.tail + n;
        s' == s.(
          cells := s.cells[block := s.cells[block][Off(i, s.b) := job.items[n]]],
          values := s.values + [job.items[n]],
          producer := if n + 1 == |job.items| then ShowTail(job)
                      else Write(job, n + 1, if Off(i + 1, s.b) == 0 then s.next[block] else block))
    case ShowTail(job) =>
      s' == s.(tail := s.tail + |job.items|, producer := Rest)
  }

  // ----------------------------------------------------------- the consumers

  function Goes(s: State, t: nat, p: Consumer): State
    requires t < |s.consumers|
  {
    s.(consumers := s.consumers[t := p])
  }

  /** The ticket protocol hands a consumer the next n published indices. */
  ghost predicate Claims(s: State, t: nat, n: nat, s': State)
    requires t < |s.consumers|
  {
    && s.consumers[t] == Away && n > 0 && s.head + n <= s.tail
    && s' == Goes(s, t, LoadHeader(s.head, s.head + n)).(head := s.head + n, claims := s.claims + Repeat(n, t))
  }

  ghost predicate ConsumerStep(s: State, t: nat, s': State)
    requires Sane(s) && t < |s.consumers|
  {
    match s.consumers[t]
    case Away => exists n: nat :: Claims(s, t, n, s')
    case LoadHeader(i, end) => s' == Goes(s, t, LoadFront(i, end, |s.headers| - 1))
    case LoadFront(i, end, h) =>
      h < |s.headers| && s' == Goes(s, t, LoadBase(i, end, h, s.headers[h].front))
    case LoadBase(i, end, h, f) =>
      && h < |s.headers| && s.headers[h].size > 0 && 0 <= f < |s.headers[h].entries|
      && var slot := SlotFrom(f, Word(i - Off(i, s.b)), EntryAt(s.headers[h], f).base, s.b, s.headers[h].size);
        s' == Goes(s, t, LoadBlock(i, end, h, slot))
    case LoadBlock(i, end, h, slot) =>
      && h < |s.headers| && slot < |s.headers[h].entries|
      && s' == Goes(s, t, Read(i, i, end, h, slot, EntryAt(s.headers[h], slot).block))
    case Read(from, i, end, h, slot, block) =>
      && block < |s.cells| && |s.cells[block]| == s.b
      && s' == Goes(s, t, if i + 1 == end || Off(i + 1, s.b) == 0
                          then SetEmpty(from, i + 1, 0, end, h, slot, block)
                          else Read(from, i + 1, end, h, slot, block)).(
        got := s.got[i := s.cells[block][Off(i, s.b)]])
    case SetEmpty(from, to, n, end, h, slot, block) =>
      && block < |s.empty| && from < to && n < to - from
      && var flag := s.b - 1 - Off(from, s.b) - (to - from) + 1 + n;
        && 0 <= flag < |s.empty[block]| && h < |s.headers| && s.headers[h].size > 0
        && s' == Goes(s, t, if n + 1 < to - from then SetEmpty(from, to, n + 1, end, h, slot, block)
                            else if to == end then Away
                            else LoadBlock(to, end, h, Slot(slot + 1, s.headers[h].size))).(
          empty := s.empty[block := s.empty[block][flag := true]], done := s.done + {to - 1 - n})
  }

  ghost predicate Next(s: State, s': State) {
    && Sane(s)
    && (ProducerStep(s, s') || exists t: nat :: t < |s.consumers| && ConsumerStep(s, t, s'))
  }

  /** The number of slots of every index divides the number of blocks in a full turn of the
      index type; with powers of two, it is not larger. */
  ghost predicate Fits(s: State) {
    s.b > 0 && forall h :: 0 <= h < |s.headers| ==> FitsTurn(s.b, s.headers[h].size)
  }

  ghost predicate Run(run: seq<State>) {
    && |run| > 0 && Init(run[0])
    && (forall i :: 0 <= i < |run| ==> Fits(run[i]))
    && (forall i :: 0 <= i < |run| - 1 ==> Next(run[i], run[i + 1]))
  }

  // --------------------------------------------------------------- invariant

  /** The number of the oldest block in the ring. */
  function Oldest(s: State): int {
    |s.order| - s.used
  }

  /** A block has been obtained whose index entry is not yet in place. */
  predicate Pending(s: State) {
    s.producer.StoreBase? || s.producer.StoreBlock?
  }

  /** The ring of blocks, from the oldest on, is the last `used` blocks of the order. */
  ghost predicate RingOn(cells: nat, next: seq<nat>, tailBlock: int, order: seq<nat>, used: nat) {
    var n, lo := |order|, |order| - used;
    && 0 <= lo && |next| == cells
    && (used == 0 <==> tailBlock < 0)
    && (used == 0 ==> n == 0)
    && (forall k :: lo <= k < n ==> order[k] < cells)
    && (used > 0 ==> tailBlock == order[n - 1] && next[order[n - 1]] == order[lo])
    && (forall k :: lo <= k < n - 1 ==> next[order[k]] == order[k + 1])
    && (forall j, k :: lo <= j < k < n ==> order[j] != order[k])
  }

  ghost predicate RingOk(s: State) {
    RingOn(|s.cells|, s.next, s.tailBlock, s.order, s.used)
  }

  ghost predicate Sized<T>(b: nat, blocks: seq<seq<T>>) {
    forall c :: 0 <= c < |blocks| ==> |blocks[c]| == b
  }

  ghost predicate InPlace(b: nat, order: seq<nat>, h: Header, k: int) {
    && h.size > 0 && |h.entries| == h.size && 0 <= k < |order|
    && h.entries[Slot(k - h.origin, h.size)] == Entry(Base(k, b), order[k])
  }

  ghost predicate HeaderOk(b: nat, order: seq<nat>, h: Header) {
    && h.size > 0 && |h.entries| == h.size
    && 0 <= h.origin <= h.lo <= h.hi <= |order| && h.shown < h.hi
    && (h.shown >= h.origin ==> h.front == Slot(h.shown - h.origin, h.size))
    && (forall k :: h.lo <= k < h.hi ==> InPlace(b, order, h, k))
  }

  ghost predicate HeadersOk(b: nat, order: seq<nat>, headers: seq<Header>) {
    forall h :: 0 <= h < |headers| ==> HeaderOk(b, order, headers[h])
  }

  /** The producer's own view of the last header; `n` entries have been completed. */
  ghost predicate LastOn(h: Header, size: nat, front: int, used: nat, oldest: int, n: int, usedTail: int) {
    && h.size == size && size > 0 && used <= size
    && h.lo == oldest && h.hi == n
    && front == Slot(n - h.origin, size)
    && usedTail - 1 <= h.shown
  }

  function Completed(s: State): int {
    if Pending(s) then |s.order| - 1 else |s.order|
  }

  ghost predicate LastOk(s: State)
    requires Sane(s)
  {
    LastOn(Last(s), s.size, s.front, s.used, Oldest(s), Completed(s), Used(s.tail, s.b))
  }

  function CellAt<T>(blocks: seq<seq<T>>, order: seq<nat>, k: int, o: int, default: T): T {
    if 0 <= k < |order| && order[k] < |blocks| && 0 <= o < |blocks[order[k]]| then blocks[order[k]][o] else default
  }

  /** Elements not overwritten are where they were written. */
  ghost predicate CellsOk(b: nat, cells: seq<seq<Value>>, order: seq<nat>, oldest: int, values: seq<Value>)
    requires b > 0
  {
    forall i: nat :: i < |values| && oldest <= Blk(i, b) ==>
      Blk(i, b) < |order| && CellAt(cells, order, Blk(i, b), Off(i, b), values[i] - 1) == values[i]
  }

  /** In the blocks whose flags have been cleared, exactly the consumed indices are flagged. */
  ghost predicate FlagsOk(b: nat, empty: seq<seq<bool>>, order: seq<nat>, oldest: int, ready: nat, done: set<nat>)
    requires b > 0
  {
    forall i: nat :: oldest <= Blk(i, b) < ready ==>
      (CellAt(empty, order, Blk(i, b), b - 1 - Off(i, b), i !in done) <==> i in done)
  }

  ghost predicate DoneOk(b: nat, oldest: int, done: set<nat>, got: map<nat, Value>, values: seq<Value>, head: nat)
    requires b > 0
  {
    && (forall i: nat :: Blk(i, b) < oldest ==> i in done)
    && (forall i :: i in done ==> i < head && i in got)
    && (forall i :: i in got ==> i < |values| && got[i] == values[i])
  }

  ghost predicate CountsOk(s: State) {
    |s.claims| == s.head && s.head <= s.tail <= |s.values|
  }

  /** `n0` blocks were in use when the job began. */
  ghost predicate JobOk(s: State, job: Job, n0: int) {
    && |s.order| >= s.used
    && n0 <= Oldest(s) + job.orig <= |s.order|
    && 0 <= Oldest(s) <= n0 <= |s.order|
    && (job.first < 0 <==> |s.order| == n0)
    && (job.first >= 0 ==> n0 < |s.order| && job.first == s.order[n0])
    && (job.start < 0 <==> n0 == 0)
    && (0 <= Oldest(s) < n0 ==> job.start == s.order[n0 - 1])
  }

  /** ... and `n1` are once it is over. */
  ghost predicate Obtaining(s: State, job: Job, need: int, n0: int, n1: int)
    requires s.b > 0
  {
    JobOk(s, job, n0) && s.ready == n0 && |s.values| == s.tail && |s.order| + need == n1
      && Oldest(s) <= Blk(s.tail, s.b)
  }

  ghost predicate Obtained(s: State, job: Job, n0: int, n1: int)
    requires s.b > 0
  {
    JobOk(s, job, n0) && |s.order| == n1 && Oldest(s) <= Blk(s.tail, s.b)
  }

  ghost predicate Written(s: State, job: Job, m: nat) {
    && m <= |job.items| && |s.values| == s.tail + m && s.ready == |s.order|
    && s.values[s.tail..] == job.items[..m]
  }

  ghost predicate IsBlock(s: State, block: int, k: int) {
    Oldest(s) <= k && 0 <= k < |s.order| && block == s.order[k]
  }

  ghost predicate ProducerOk(s: State)
    requires Sane(s)
  {
    var n0 := Used(s.tail, s.b);
    match s.producer
    case Rest => |s.order| == n0 && s.ready == n0 && |s.values| == s.tail && Oldest(s) <= Blk(s.tail, s.b)
    case Obtain(job, need) => Obtaining(s, job, need, n0, Used(s.tail + |job.items|, s.b))
    case StoreBase(job, need) => need > 0 && Obtaining(s, job, need - 1, n0, Used(s.tail + |job.items|, s.b))
    case StoreBlock(job, need) =>
      && need > 0 && Obtaining(s, job, need - 1, n0, Used(s.tail + |job.items|, s.b))
      && 0 <= s.front && EntryAt(Last(s), s.front).base == Base(|s.order| - 1, s.b)
    case Reset(job, cur) =>
      && Obtained(s, job, n0, Used(s.tail + |job.items|, s.b)) && |s.values| == s.tail
      && n0 <= s.ready && IsBlock(s, cur, s.ready)
    case ShowFront(job) =>
      && Obtained(s, job, n0, Used(s.tail + |job.items|, s.b)) && Written(s, job, 0) && n0 < |s.order|
    case Write(job, m, block) =>
      && Obtained(s, job, n0, Used(s.tail + |job.items|, s.b)) && Written(s, job, m) && m < |job.items|
      && Last(s).shown >= |s.order| - 1
      && IsBlock(s, block, Blk(s.tail + m, s.b))
    case ShowTail(job) =>
      && Obtained(s, job, n0, Used(s.tail + |job.items|, s.b)) && Written(s, job, |job.items|)
      && Last(s).shown >= |s.order| - 1
  }

  /** Indices from i to end are consumer t's and have not been flagged. */
  ghost predicate Owns(s: State, t: nat, i: nat, end: nat) {
    && i <= end <= s.head <= |s.claims|
    && forall x :: i <= x < end ==> s.claims[x] == t && x !in s.done
  }

  /** The entries of the blocks of indices i to end are in place in header h, as seen through a
      slot of block f. */
  ghost predicate Finds(s: State, h: nat, i: nat, end: nat, f: int)
    requires s.b > 0
  {
    && h < |s.headers| && i < end
    && s.headers[h].lo <= Blk(i, s.b) && Blk(end - 1, s.b) <= f < s.headers[h].hi
  }

  ghost predicate SlotOk(s: State, h: nat, k: int, slot: int) {
    h < |s.headers| && s.headers[h].size > 0 && slot == Slot(k - s.headers[h].origin, s.headers[h].size)
  }

  ghost predicate ConsumerOk(s: State, t: nat)
    requires Sane(s) && t < |s.consumers|
  {
    match s.consumers[t]
    case Away => true
    case LoadHeader(i, end) => i < end && Owns(s, t, i, end)
    case LoadFront(i, end, h) =>
      && i < end && Owns(s, t, i, end)
      && h < |s.headers| && Finds(s, h, i, end, s.headers[h].shown)
    case LoadBase(i, end, h, f) =>
      && Owns(s, t, i, end)
      && exists k :: Finds(s, h, i, end, k) && SlotOk(s, h, k, f)
    case LoadBlock(i, end, h, slot) =>
      && Owns(s, t, i, end)
      && Finds(s, h, i, end, Blk(end - 1, s.b)) && SlotOk(s, h, Blk(i, s.b), slot)
    case Read(from, i, end, h, slot, block) =>
      && from <= i && Owns(s, t, from, end) && Blk(from, s.b) == Blk(i, s.b)
      && Finds(s, h, i, end, Blk(end - 1, s.b)) && SlotOk(s, h, Blk(i, s.b), slot)
      && 0 <= Blk(i, s.b) < |s.order| && block == s.order[Blk(i, s.b)]
      && (forall x :: from <= x < i ==> x in s.got)
    case SetEmpty(from, to, n, end, h, slot, block) =>
      && n < to - from && to <= end
      && Owns(s, t, from, to - n) && Owns(s, t, to, end)
      && Blk(from, s.b) == Blk(to - 1, s.b)
      && Finds(s, h, from, end, Blk(end - 1, s.b)) && SlotOk(s, h, Blk(from, s.b), slot)
      && 0 <= Blk(from, s.b) < |s.order| && block == s.order[Blk(from, s.b)]
      && (to < end ==> Off(to, s.b) == 0)
      && (forall x :: from <= x < to ==> x in s.got)
  }

  /** The part of the invariant that is not about consumers. */
  ghost predicate Core(s: State) {
    && Sane(s) && RingOk(s) && Sized(s.b, s.cells) && Sized(s.b, s.empty)
    && HeadersOk(s.b, s.order, s.headers) && LastOk(s)
    && CellsOk(s.b, s.cells, s.order, Oldest(s), s.values)
    && FlagsOk(s.b, s.empty, s.order, Oldest(s), s.ready, s.done)
    && DoneOk(s.b, Oldest(s), s.done, s.got, s.values, s.head)
    && CountsOk(s) && ProducerOk(s)
  }

  ghost predicate Inv(s: State) {
    Core(s) && (forall t :: 0 <= t < |s.consumers| ==> ConsumerOk(s, t))
  }

  // --------------------------------------------------------- frame of a step

  /** From s to s' headers only gain entries and drop blocks that are used up, histories only grow,
      and nothing of consumer u is flagged. */
  ghost predicate Extends(s: State, s': State, u: nat)
    requires s.b > 0 && s'.b > 0
  {
    && s'.b == s.b
    && |s.headers| <= |s'.headers|
    && (forall h :: 0 <= h < |s.headers| ==> HeaderExtends(s.headers[h], s'.headers[h], Oldest(s')))
    && |s.order| <= |s'.order| && (forall k :: 0 <= k < |s.order| ==> s'.order[k] == s.order[k])
    && |s.claims| <= |s'.claims| && (forall x :: 0 <= x < |s.claims| ==> s'.claims[x] == s.claims[x])
    && s.head <= s'.head <= |s'.claims|
    && (forall x: nat :: x in s'.done && x !in s.done ==> x < |s.claims| && s.claims[x] != u)
    && (forall x: nat :: x in s.got ==> x in s'.got)
    && (forall i: nat :: Blk(i, s.b) < Oldest(s') ==> i in s'.done)
  }

  predicate HeaderExtends(h: Header, h': Header, oldest: int) {
    && h'.size == h.size && h'.origin == h.origin && h.hi <= h'.hi && h.shown <= h'.shown < h'.hi
    && (h'.lo <= h.lo || h'.lo <= oldest)
  }

  lemma FindsKept(s: State, s': State, u: nat, h: nat, i: nat, end: nat, f: int)
    requires s.b > 0 && s'.b > 0 && Extends(s, s', u) && Finds(s, h, i, end, f) && i !in s'.done
    ensures Finds(s', h, i, end, f)
  {
    hide Blk, Off;
    assert HeaderExtends(s.headers[h], s'.headers[h], Oldest(s'));
  }

  lemma OwnsKept(s: State, s': State, u: nat, i: nat, end: nat)
    requires s.b > 0 && s'.b > 0 && Extends(s, s', u) && Owns(s, u, i, end)
    ensures Owns(s', u, i, end) && forall x :: i <= x < end ==> x !in s'.done
  {
    hide Blk, Off;
  }

  lemma ConsumerKept(s: State, s': State, u: nat)
    requires Sane(s) && Sane(s') && u < |s.consumers| == |s'.consumers|
    requires s'.consumers[u] == s.consumers[u] && ConsumerOk(s, u) && Extends(s, s', u)
    ensures ConsumerOk(s', u)
  {
    hide Blk, Off, Slot;
    if s.consumers[u].Read? || s.consumers[u].SetEmpty? {
      HolderKept(s, s', u);
    } else {
      LoaderKept(s, s', u);
    }
  }

  /** ... while it looks for the block ... */
  lemma LoaderKept(s: State, s': State, u: nat)
    requires Sane(s) && Sane(s') && u < |s.consumers| == |s'.consumers|
    requires s'.consumers[u] == s.consumers[u] && ConsumerOk(s, u) && Extends(s, s', u)
    requires !s.consumers[u].Read? && !s.consumers[u].SetEmpty?
    ensures ConsumerOk(s', u)
  {
    hide Blk, Off, Slot, Owns;
    match s.consumers[u] {
      case Away =>
      case LoadHeader(i, end) => OwnsKept(s, s', u, i, end);
      case LoadFront(i, end, h) =>
        OwnsKept(s, s', u, i, end);
        FindsKept(s, s', u, h, i, end, s.headers[h].shown);
        assert HeaderExtends(s.headers[h], s'.headers[h], Oldest(s'));
      case LoadBase(i, end, h, f) =>
        var k :| Finds(s, h, i, end, k) && SlotOk(s, h, k, f);
        OwnsKept(s, s', u, i, end);
        FindsKept(s, s', u, h, i, end, k);
        assert HeaderExtends(s.headers[h], s'.headers[h], Oldest(s'));
        assert Finds(s', h, i, end, k) && SlotOk(s', h, k, f);
      case LoadBlock(i, end, h, slot) =>
        OwnsKept(s, s', u, i, end);
        FindsKept(s, s', u, h, i, end, Blk(end - 1, s.b));
        assert HeaderExtends(s.headers[h], s'.headers[h], Oldest(s'));
    }
  }

  /** ... and once it has it. */
  lemma HolderKept(s: State, s': State, u: nat)
    requires Sane(s) && Sane(s') && u < |s.consumers| == |s'.consumers|
    requires s'.consumers[u] == s.consumers[u] && ConsumerOk(s, u) && Extends(s, s', u)
    requires s.consumers[u].Read? || s.consumers[u].SetEmpty?
    ensures ConsumerOk(s', u)
  {
    hide Blk, Off, Slot, Owns;
    match s.consumers[u] {
      case Read(from, i, end, h, slot, block) =>
        OwnsKept(s, s', u, from, end);
        FindsKept(s, s', u, h, i, end, Blk(end - 1, s.b));
        assert HeaderExtends(s.headers[h], s'.headers[h], Oldest(s'));
      case SetEmpty(from, to, n, end, h, slot, block) =>
        OwnsKept(s, s', u, from, to - n);
        OwnsKept(s, s', u, to, end);
        FindsKept(s, s', u, h, from, end, Blk(end - 1, s.b));
        assert HeaderExtends(s.headers[h], s'.headers[h], Oldest(s'));
    }
  }

  /** What is left to show of a producer step once the core of the invariant is kept. */
  lemma ProducerKeeps(s: State, s': State)
    requires Inv(s) && Core(s') && s'.b == s.b
    requires s'.consumers == s.consumers && s'.claims == s.claims && s'.head == s.head && s'.done == s.done
             && s'.got == s.got
    requires |s.headers| <= |s'.headers| && |s.order| <= |s'.order|
    requires forall h :: 0 <= h < |s.headers| ==> HeaderExtends(s.headers[h], s'.headers[h], Oldest(s'))
    requires forall k :: 0 <= k < |s.order| ==> s'.order[k] == s.order[k]
    ensures Inv(s')
  {
    hide Blk, Off, Slot, RingOn, HeaderOk, LastOn, CellsOk, FlagsOk, ProducerOk, ConsumerOk;
    forall u | 0 <= u < |s'.consumers| ensures ConsumerOk(s', u) {
      assert Extends(s, s', u);
      ConsumerKept(s, s', u);
    }
  }

  lemma HeadersFrame(b: nat, order: seq<nat>, order': seq<nat>, headers: seq<Header>)
    requires HeadersOk(b, order, headers)
    requires |order| <= |order'| && order'[..|order|] == order
    ensures HeadersOk(b, order', headers)
  {
    hide Slot, Base;
    forall h | 0 <= h < |headers| ensures HeaderOk(b, order', headers[h]) {
      assert HeaderOk(b, order, headers[h]);
      forall k | headers[h].lo <= k < headers[h].hi ensures InPlace(b, order', headers[h], k) {
        assert InPlace(b, order, headers[h], k) && order'[..|order|][k] == order[k];
      }
    }
  }

  // ------------------------------------------ how each part survives a step

  lemma RingReuse(cells: nat, next: seq<nat>, tailBlock: int, order: seq<nat>, used: nat)
    requires RingOn(cells, next, tailBlock, order, used) && tailBlock >= 0
    ensures tailBlock < |next| && next[tailBlock] == order[|order| - used] && next[tailBlock] < cells
    ensures RingOn(cells, next, next[tailBlock], order + [next[tailBlock]], used)
  {
    var n, lo := |order|, |order| - used;
    var order' := order + [order[lo]];
    assert forall k :: 0 <= k < n ==> order'[k] == order[k];
    if used > 1 {
      assert next[order[lo]] == order[lo + 1];
    }
  }

  lemma RingAdd(cells: nat, next: seq<nat>, tailBlock: int, order: seq<nat>, used: nat)
    requires RingOn(cells, next, tailBlock, order, used)
    ensures tailBlock >= 0 ==> tailBlock < |next|
    ensures var next' := if tailBlock < 0 then next + [cells] else (next + [next[tailBlock]])[tailBlock := cells];
            RingOn(cells + 1, next', cells, order + [cells], used + 1)
  {
    var n, lo := |order|, |order| - used;
    var order' := order + [cells];
    assert forall k :: 0 <= k < n ==> order'[k] == order[k];
  }

  lemma CellsAppend(b: nat, cells: seq<seq<Value>>, cells': seq<seq<Value>>, order: seq<nat>, x: nat, oldest: int,
      oldest': int, values: seq<Value>)
    requires b > 0 && CellsOk(b, cells, order, oldest, values) && oldest <= oldest'
    requires |cells| <= |cells'| && cells'[..|cells|] == cells
    ensures CellsOk(b, cells', order + [x], oldest', values)
  {
    hide Blk, Off;
    forall i: nat | i < |values| && oldest' <= Blk(i, b)
      ensures Blk(i, b) < |order| && CellAt(cells', order + [x], Blk(i, b), Off(i, b), values[i] - 1) == values[i]
    {
      assert CellAt(cells, order, Blk(i, b), Off(i, b), values[i] - 1) == values[i];
      assert cells'[..|cells|][order[Blk(i, b)]] == cells[order[Blk(i, b)]];
    }
  }

  lemma FlagsAppend(b: nat, empty: seq<seq<bool>>, empty': seq<seq<bool>>, order: seq<nat>, x: nat, oldest: int,
      oldest': int, ready: nat, done: set<nat>)
    requires b > 0 && FlagsOk(b, empty, order, oldest, ready, done) && oldest <= oldest'
    requires |empty| <= |empty'| && empty'[..|empty|] == empty
    ensures FlagsOk(b, empty', order + [x], oldest', ready, done)
  {
    hide Blk, Off;
    forall i: nat | oldest' <= Blk(i, b) < ready
      ensures CellAt(empty', order + [x], Blk(i, b), b - 1 - Off(i, b), i !in done) <==> i in done
    {
      assert CellAt(empty, order, Blk(i, b), b - 1 - Off(i, b), i !in done) <==> i in done;
      assert empty'[..|empty|][order[Blk(i, b)]] == empty[order[Blk(i, b)]];
    }
  }

  /** A block all of whose flags are set has been consumed. */
  lemma AllConsumed(b: nat, empty: seq<seq<bool>>, order: seq<nat>, oldest: int, ready: nat, done: set<nat>)
    requires b > 0 && FlagsOk(b, empty, order, oldest, ready, done) && Sized(b, empty)
    requires 0 <= oldest < ready && oldest < |order| && order[oldest] < |empty| && AllTrue(empty[order[oldest]])
    ensures forall i: nat :: Blk(i, b) == oldest ==> i in done
  {
    hide Blk, Off;
    forall i: nat | Blk(i, b) == oldest ensures i in done {
      assert CellAt(empty, order, Blk(i, b), b - 1 - Off(i, b), i !in done) <==> i in done;
    }
  }

  lemma HeaderUpdate(b: nat, order: seq<nat>, headers: seq<Header>, h: Header)
    requires HeadersOk(b, order, headers) && |headers| > 0 && HeaderOk(b, order, h)
    ensures HeadersOk(b, order, headers[|headers| - 1 := h])
  {
  }

  lemma HeaderLo(b: nat, order: seq<nat>, h: Header)
    requires HeaderOk(b, order, h) && h.lo < h.hi
    ensures HeaderOk(b, order, h.(lo := h.lo + 1))
  {
    hide Slot, Base;
    var h' := h.(lo := h.lo + 1);
    forall k | h'.lo <= k < h'.hi ensures InPlace(b, order, h', k) { assert InPlace(b, order, h, k); }
  }

  /** Writing the slot of block hi, which no entry in place occupies. */
  lemma HeaderSlot(b: nat, order: seq<nat>, h: Header, slot: int, e: Entry)
    requires HeaderOk(b, order, h) && h.hi - h.lo < h.size && slot == Slot(h.hi - h.origin, h.size)
    ensures HeaderOk(b, order, SetEntry(h, slot, e)) && EntryAt(SetEntry(h, slot, e), slot) == e
    ensures h.hi < |order| && e == Entry(Base(h.hi, b), order[h.hi]) ==>
              HeaderOk(b, order, SetEntry(h, slot, e).(hi := h.hi + 1))
  {
    hide Slot, Base;
    var h' := SetEntry(h, slot, e);
    var h2 := h'.(hi := h.hi + 1);
    forall k | h.lo <= k < h.hi ensures InPlace(b, order, h', k) && InPlace(b, order, h2, k) {
      assert InPlace(b, order, h, k);
      SlotsDistinct(k - h.origin, h.hi - h.origin, h.size);
    }
    if h.hi < |order| && e == Entry(Base(h.hi, b), order[h.hi]) {
      assert InPlace(b, order, h2, h.hi);
      assert HeaderOk(b, order, h2);
    }
  }

  /** A step that only moves the producer's program counter. */
  lemma PcInv(s: State, s': State)
    requires Inv(s) && s' == s.(producer := s'.producer, accepted := s'.accepted)
    requires Pending(s) == Pending(s') && ProducerOk(s')
    ensures Inv(s')
  {
    hide Blk, Off, Slot, Base, RingOn, Sized, HeadersOk, LastOn, CellsOk, FlagsOk, DoneOk, ProducerOk, ConsumerOk;
    assert Core(s');
    forall h | 0 <= h < |s.headers| ensures s.headers[h].shown < s.headers[h].hi {
      ShownInPlace(s.b, s.order, s.headers, h);
    }
    ProducerKeeps(s, s');
  }

  lemma ShownInPlace(b: nat, order: seq<nat>, headers: seq<Header>, h: nat)
    requires HeadersOk(b, order, headers) && h < |headers|
    ensures HeaderOk(b, order, headers[h])
    ensures headers[h].shown < headers[h].hi <= |order|
  {
  }

  lemma RestInv(s: State, items: seq<Value>, s': State)
    requires Inv(s) && BeginEnqueue(s, items, s')
    ensures Inv(s')
  {
    hide Blk, Off, Slot, Base, Sized, HeadersOk, LastOn, CellsOk, FlagsOk, DoneOk, ConsumerOk;
    UsedBlocks(0, s.tail, s.b);
    PcInv(s, s');
  }

  lemma ObtainedInv(s: State, s': State)
    requires Inv(s) && s.producer.Obtain? && s.producer.need == 0 && ProducerStep(s, s')
    ensures Inv(s')
  {
    hide Blk, Off, Slot, Base, Sized, HeadersOk, CellsOk, FlagsOk, DoneOk, ConsumerOk;
    var job := s.producer.job;
    UsedBlocks(s.tail, s.tail + |job.items|, s.b);
    UsedBlocks(s.tail, s.tail, s.b);
    assert s.values[s.tail..] == job.items[..0];
    PcInv(s, s');
  }

  lemma ReusesJob(s: State, s': State)
    requires Sane(s) && Sane(s') && RingOk(s) && ProducerOk(s) && s.producer.Obtain?
    requires Reuses(s, s.producer.job, s.producer.need, s')
    requires Oldest(s) < Blk(s.tail, s.b) && Oldest(s) < Used(s.tail, s.b)
    ensures ProducerOk(s')
  {
    hide Blk, Off, Slot, Base, RingOn, HeadersOk, HeaderOk, CellsOk, FlagsOk, ConsumerOk;
    RingReuse(|s.cells|, s.next, s.tailBlock, s.order, s.used);
    RingFacts(|s.cells|, s.next, s.tailBlock, s.order, s.used);
    assert forall k :: 0 <= k < |s.order| ==> s'.order[k] == s.order[k];
  }

  lemma SaneFromRing(s: State)
    requires RingOk(s) && s.b > 0 && |s.headers| > 0 && s.size > 0 && |s.empty| == |s.cells|
    ensures Sane(s)
  {
    if s.tailBlock >= 0 {
      RingReuse(|s.cells|, s.next, s.tailBlock, s.order, s.used);
    }
  }

  /** The block that is reused holds neither the next index to be filled nor a later one. */
  lemma ReusesOld(s: State)
    requires Core(s) && s.producer.Obtain? && CanReuse(s, s.producer.job)
    ensures Oldest(s) < Blk(s.tail, s.b) && Oldest(s) < Used(s.tail, s.b)
    ensures forall i: nat :: Blk(i, s.b) < Oldest(s) + 1 ==> i in s.done
  {
    hide Blk, Off, Slot, Base, RingOn, HeadersOk, HeaderOk, CellsOk, FlagsOk, LastOn, ConsumerOk;
    RingReuse(|s.cells|, s.next, s.tailBlock, s.order, s.used);
    RingFacts(|s.cells|, s.next, s.tailBlock, s.order, s.used);
    UsedBlocks(s.tail, s.tail, s.b);
    AllConsumed(s.b, s.empty, s.order, Oldest(s), s.ready, s.done);
    assert s.tail !in s.done;
  }

  lemma ReusesCore(s: State, s': State)
    requires Core(s) && s.producer.Obtain? && Reuses(s, s.producer.job, s.producer.need, s')
    ensures Core(s')
  {
    hide Blk, Off, Slot, Base, RingOn, Sized, HeadersOk, HeaderOk, CellsOk, FlagsOk, ProducerOk, ConsumerOk, AllTrue;
    var block := s.next[s.tailBlock];
    ReusesOld(s);
    RingReuse(|s.cells|, s.next, s.tailBlock, s.order, s.used);
    SaneFromRing(s');
    ReusesJob(s, s');
    RingFacts(|s.cells|, s.next, s.tailBlock, s.order, s.used);
    CellsAppend(s.b, s.cells, s.cells, s.order, block, Oldest(s), Oldest(s'), s.values);
    FlagsAppend(s.b, s.empty, s.empty, s.order, block, Oldest(s), Oldest(s'), s.ready, s.done);
    assert s'.order[..|s.order|] == s.order;
    HeadersFrame(s.b, s.order, s'.order, s.headers);
    ShownInPlace(s.b, s'.order, s.headers, |s.headers| - 1);
    HeaderLo(s.b, s'.order, Last(s));
    HeaderUpdate(s.b, s'.order, s.headers, Last(s'));
  }

  lemma ReusesInv(s: State, s': State)
    requires Inv(s) && s.producer.Obtain? && Reuses(s, s.producer.job, s.producer.need, s')
    ensures Inv(s')
  {
    hide Blk, Off, Slot, Base, RingOn, Sized, HeadersOk, CellsOk, FlagsOk, DoneOk, CountsOk, ProducerOk, ConsumerOk,
      AllTrue;
    ReusesCore(s, s');
    ShownAll(s.b, s.order, s.headers);
    ProducerKeeps(s, s');
  }

  lemma RingFacts(cells: nat, next: seq<nat>, tailBlock: int, order: seq<nat>, used: nat)
    requires RingOn(cells, next, tailBlock, order, used)
    ensures used <= |order| && (used == 0 <==> tailBlock < 0) && (used == 0 ==> |order| == 0)
    ensures used > 0 ==> tailBlock == order[|order| - 1] < cells == |next|
    ensures forall k :: |order| - used <= k < |order| ==> order[k] < cells
  {
  }

  lemma ShownAll(b: nat, order: seq<nat>, headers: seq<Header>)
    requires HeadersOk(b, order, headers)
    ensures forall h :: 0 <= h < |headers| ==> headers[h].shown < headers[h].hi <= |order|
  {
    forall h | 0 <= h < |headers| ensures headers[h].shown < headers[h].hi <= |order| {
      assert HeaderOk(b, order, headers[h]);
    }
  }

  lemma AddsBlockJob(s: State, s': State)
    requires Sane(s) && Sane(s') && RingOk(s) && ProducerOk(s) && s.producer.Obtain?
    requires AddsBlock(s, s.producer.job, s.producer.need, s')
    ensures ProducerOk(s')
  {
    hide Blk, Off, Slot, Base, RingOn, HeadersOk, HeaderOk, CellsOk, FlagsOk, ConsumerOk, AllTrue;
    RingFacts(|s.cells|, s.next, s.tailBlock, s.order, s.used);
    assert forall k :: 0 <= k < |s.order| ==> s'.order[k] == s.order[k];
  }

  lemma SizedAppend<T>(b: nat, blocks: seq<seq<T>>, x: seq<T>)
    requires Sized(b, blocks) && |x| == b
    ensures Sized(b, blocks + [x])
  {
  }

  lemma AddsBlockCore(s: State, s': State)
    requires Core(s) && s.producer.Obtain? && AddsBlock(s, s.producer.job, s.producer.need, s')
    ensures Core(s')
  {
    hide Blk, Off, Slot, Base, RingOn, Sized, HeadersOk, HeaderOk, CellsOk, FlagsOk, DoneOk, ProducerOk, ConsumerOk,
      AllTrue;
    var block := |s.cells|;
    RingAdd(|s.cells|, s.next, s.tailBlock, s.order, s.used);
    SaneFromRing(s');
    AddsBlockJob(s, s');
    RingFacts(|s.cells|, s.next, s.tailBlock, s.order, s.used);
    SizedAppend(s.b, s.cells, s'.cells[block]);
    SizedAppend(s.b, s.empty, Repeat(s.b, true));
    CellsAppend(s.b, s.cells, s'.cells, s.order, block, Oldest(s), Oldest(s'), s.values);
    FlagsAppend(s.b, s.empty, s'.empty, s.order, block, Oldest(s), Oldest(s'), s.ready, s.done);
    assert s'.order[..|s.order|] == s.order;
    HeadersFrame(s.b, s.order, s'.order, s.headers);
  }

  lemma AddsBlockInv(s: State, s': State)
    requires Inv(s) && s.producer.Obtain? && AddsBlock(s, s.producer.job, s.producer.need, s')
    ensures Inv(s')
  {
    hide Blk, Off, Slot, Base, RingOn, Sized, HeadersOk, LastOn, CellsOk, FlagsOk, DoneOk, CountsOk, ProducerOk,
      ConsumerOk, AllTrue;
    AddsBlockCore(s, s');
    ShownAll(s.b, s.order, s.headers);
    ProducerKeeps(s, s');
  }

  lemma StoreBaseInv(s: State, s': State)
    requires Inv(s) && s.producer.StoreBase? && ProducerStep(s, s')
    ensures Inv(s')
  {
    hide Blk, Off, Slot, Base, RingOn, HeadersOk, HeaderOk, CellsOk, FlagsOk, ConsumerOk;
    RingFacts(|s.cells|, s.next, s.tailBlock, s.order, s.used);
    ShownInPlace(s.b, s.order, s.headers, |s.headers| - 1);
    var e := EntryAt(Last(s), s.front).(base := Base(Adding(s, s.producer.job, s.producer.need), s.b));
    HeaderSlot(s.b, s.order, Last(s), s.front, e);
    HeaderUpdate(s.b, s.order, s.headers, SetEntry(Last(s), s.front, e));
    assert Core(s');
    ShownAll(s.b, s.order, s.headers);
    ProducerKeeps(s, s');
  }

  lemma StoreBlockInv(s: State, s': State)
    requires Inv(s) && s.producer.StoreBlock? && ProducerStep(s, s')
    ensures Inv(s')
  {
    hide Blk, Off, Slot, Base, RingOn, HeadersOk, HeaderOk, CellsOk, FlagsOk, ConsumerOk;
    RingFacts(|s.cells|, s.next, s.tailBlock, s.order, s.used);
    ShownInPlace(s.b, s.order, s.headers, |s.headers| - 1);
    var e := EntryAt(Last(s), s.front).(block := s.tailBlock);
    HeaderSlot(s.b, s.order, Last(s), s.front, e);
    HeaderUpdate(s.b, s.order, s.headers, Last(s'));
    SlotShift(Last(s).hi - Last(s).origin, 1, s.size);
    assert Core(s');
    ShownAll(s.b, s.order, s.headers);
    ProducerKeeps(s, s');
  }

  lemma FitsSmall(b: nat, size: nat)
    requires b > 0 && FitsTurn(b, size)
    ensures size <= MOD
  {
    var turns: nat :| b * (size * turns) == MOD;
    assert size * turns > 0;
    MulAtLeast(b, size * turns);
    assert turns > 0;
    MulAtLeast(turns, size);
    assert size <= size * turns <= MOD;
  }

  /** The copy made by new_block_index holds the entries in place, in its first slots. */
  lemma DoubledHeader(b: nat, order: seq<nat>, h: Header, used: nat, front: int, entries: seq<Entry>, orig: nat)
    requires HeaderOk(b, order, h) && used <= h.size <= MOD && orig <= used
    requires h.hi == |order| && h.lo == |order| - used && front == Slot(h.hi - h.origin, h.size)
    requires |entries| == 2 * h.size
    requires forall j :: 0 <= j < used ==> entries[j] == h.entries[Slot(front - used + j, h.size)]
    ensures HeaderOk(b, order, Header(2 * h.size, Word(orig - 1), entries, h.lo, h.lo, h.hi, h.lo + orig - 1))
  {
    hide Slot, Base;
    var n := Header(2 * h.size, Word(orig - 1), entries, h.lo, h.lo, h.hi, h.lo + orig - 1);
    forall k | n.lo <= k < n.hi ensures InPlace(b, order, n, k) {
      var j := k - h.lo;
      assert InPlace(b, order, h, k);
      SlotShift(h.hi - h.origin, j - used, h.size);
      assert entries[j] == h.entries[Slot(front - used + j, h.size)];
      SlotSmall(j, n.size);
    }
    if orig > 0 {
      SlotSmall(orig - 1, n.size);
    }
  }

  lemma GrowsCore(s: State, s': State)
    requires Core(s) && Fits(s) && s.producer.Obtain? && Grows(s, s.producer.job, s.producer.need, s')
    ensures Core(s')
  {
    hide Blk, Off, Slot, Base, RingOn, Sized, HeadersOk, HeaderOk, CellsOk, FlagsOk, DoneOk, ConsumerOk, AllTrue;
    var entries := s'.headers[|s.headers|].entries;
    RingFacts(|s.cells|, s.next, s.tailBlock, s.order, s.used);
    ShownInPlace(s.b, s.order, s.headers, |s.headers| - 1);
    FitsSmall(s.b, Last(s).size);
    DoubledHeader(s.b, s.order, Last(s), s.used, s.front, entries, s.producer.job.orig);
    SlotSmall(s.used, 2 * s.size);
    HeadersAppend(s.b, s.order, s.headers, Last(s'));
  }

  lemma HeadersAppend(b: nat, order: seq<nat>, headers: seq<Header>, h: Header)
    requires HeadersOk(b, order, headers) && HeaderOk(b, order, h)
    ensures HeadersOk(b, order, headers + [h])
  {
  }

  lemma GrowsInv(s: State, s': State)
    requires Inv(s) && Fits(s) && s.producer.Obtain? && Grows(s, s.producer.job, s.producer.need, s')
    ensures Inv(s')
  {
    hide Blk, Off, Slot, Base, RingOn, Sized, HeadersOk, LastOn, CellsOk, FlagsOk, DoneOk, CountsOk, ProducerOk,
      ConsumerOk, AllTrue;
    GrowsCore(s, s');
    ShownAll(s.b, s.order, s.headers);
    ProducerKeeps(s, s');
  }

  lemma FlagsReset(b: nat, empty: seq<seq<bool>>, order: seq<nat>, oldest: int, ready: nat, done: set<nat>, cur: nat)
    requires b > 0 && FlagsOk(b, empty, order, oldest, ready, done) && Sized(b, empty)
    requires 0 <= oldest <= ready < |order| && cur == order[ready] < |empty|
    requires forall k :: oldest <= k < ready ==> order[k] != order[ready]
    requires forall i: nat :: i in done ==> Blk(i, b) < ready
    ensures FlagsOk(b, empty[cur := Repeat(b, false)], order, oldest, ready + 1, done)
    ensures Sized(b, empty[cur := Repeat(b, false)])
  {
    hide Blk, Off;
    var empty' := empty[cur := Repeat(b, false)];
    forall i: nat | oldest <= Blk(i, b) < ready + 1
      ensures CellAt(empty', order, Blk(i, b), b - 1 - Off(i, b), i !in done) <==> i in done
    {
      if Blk(i, b) < ready {
        assert CellAt(empty, order, Blk(i, b), b - 1 - Off(i, b), i !in done) <==> i in done;
      }
    }
  }

  lemma RingOrder(cells: nat, next: seq<nat>, tailBlock: int, order: seq<nat>, used: nat, k: int)
    requires RingOn(cells, next, tailBlock, order, used) && |order| - used <= k < |order|
    ensures 0 <= k && order[k] < cells == |next|
    ensures forall j :: |order| - used <= j < |order| && j != k ==> order[j] != order[k]
    ensures order[k] == tailBlock <==> k == |order| - 1
    ensures k < |order| - 1 ==> next[order[k]] == order[k + 1]
  {
  }

  lemma ResetInv(s: State, s': State)
    requires Inv(s) && s.producer.Reset? && ProducerStep(s, s')
    ensures Inv(s')
  {
    hide Blk, Off, Slot, Base, RingOn, Sized, HeadersOk, HeaderOk, LastOn, CellsOk, FlagsOk, DoneOk, ConsumerOk,
      AllTrue, Repeat;
    RingOrder(|s.cells|, s.next, s.tailBlock, s.order, s.used, s.ready);
    DoneBelow(s);
    FlagsReset(s.b, s.empty, s.order, Oldest(s), s.ready, s.done, s.producer.cur);
    assert s.values[s.tail..] == s.producer.job.items[..0];
    assert Core(s');
    ShownAll(s.b, s.order, s.headers);
    ProducerKeeps(s, s');
  }

  lemma DoneBelow(s: State)
    requires s.b > 0 && CountsOk(s) && DoneOk(s.b, Oldest(s), s.done, s.got, s.values, s.head)
    ensures forall i: nat :: i in s.done ==> Blk(i, s.b) < Used(s.tail, s.b)
  {
    hide Blk, Off;
    forall i: nat | i in s.done ensures Blk(i, s.b) < Used(s.tail, s.b) {
      UsedBlocks(i, s.tail, s.b);
    }
  }

  lemma ShowFrontInv(s: State, s': State)
    requires Inv(s) && s.producer.ShowFront? && ProducerStep(s, s')
    ensures Inv(s')
  {
    hide Blk, Off, Slot, Base, RingOn, Sized, HeadersOk, CellsOk, FlagsOk, DoneOk, ConsumerOk, AllTrue;
    var job := s.producer.job;
    UsedBlocks(s.tail, s.tail, s.b);
    RingFacts(|s.cells|, s.next, s.tailBlock, s.order, s.used);
    ShownInPlace(s.b, s.order, s.headers, |s.headers| - 1);
    SlotShift(Last(s).hi - Last(s).origin, -1, s.size);
    ShownHeader(s.b, s.order, Last(s), Last(s').front, |s.order| - 1);
    HeaderUpdate(s.b, s.order, s.headers, Last(s'));
    assert Core(s');
    ShownAll(s.b, s.order, s.headers);
    ProducerKeeps(s, s');
  }

  lemma ShownHeader(b: nat, order: seq<nat>, h: Header, front: int, k: int)
    requires HeaderOk(b, order, h) && k < h.hi && (k >= h.origin ==> front == Slot(k - h.origin, h.size))
    ensures HeaderOk(b, order, h.(front := front, shown := k))
  {
    hide Slot, Base;
    var h' := h.(front := front, shown := k);
    forall j | h'.lo <= j < h'.hi ensures InPlace(b, order, h', j) { assert InPlace(b, order, h, j); }
  }

  lemma CellsWrite(b: nat, cells: seq<seq<Value>>, order: seq<nat>, oldest: int, values: seq<Value>, block: nat,
      x: Value)
    requires b > 0 && CellsOk(b, cells, order, oldest, values) && Sized(b, cells)
    requires var k := Blk(|values|, b); 0 <= oldest <= k < |order| && block == order[k] < |cells|
    requires forall j :: oldest <= j < |order| && j != Blk(|values|, b) ==> order[j] != block
    ensures var cells' := cells[block := cells[block][Off(|values|, b) := x]];
            CellsOk(b, cells', order, oldest, values + [x]) && Sized(b, cells')
  {
    hide Blk, Off;
    var n, values' := |values|, values + [x];
    var cells' := cells[block := cells[block][Off(n, b) := x]];
    forall i: nat | i < |values'| && oldest <= Blk(i, b)
      ensures Blk(i, b) < |order| && CellAt(cells', order, Blk(i, b), Off(i, b), values'[i] - 1) == values'[i]
    {
      if i < n {
        assert CellAt(cells, order, Blk(i, b), Off(i, b), values[i] - 1) == values[i];
        if Blk(i, b) == Blk(n, b) {
          BlkInj(i, n, b);
        }
      }
    }
  }

  lemma WriteCore(s: State, s': State)
    requires Core(s) && s.producer.Write? && ProducerStep(s, s')
    ensures Core(s')
  {
    hide Blk, Off, Slot, Base, RingOn, Sized, HeadersOk, HeaderOk, LastOn, CellsOk, FlagsOk, ConsumerOk, AllTrue;
    var job, n, block := s.producer.job, s.producer.n, s.producer.block;
    var i := s.tail + n;
    RingOrder(|s.cells|, s.next, s.tailBlock, s.order, s.used, Blk(i, s.b));
    CellsWrite(s.b, s.cells, s.order, Oldest(s), s.values, block, job.items[n]);
    BlkNext(i, s.b);
    UsedBlocks(i + 1, s.tail + |job.items|, s.b);
    assert s'.values[s.tail..] == s.values[s.tail..] + [job.items[n]];
    assert job.items[..n] + [job.items[n]] == job.items[..n + 1];
    assert job.items[..|job.items|] == job.items;
  }

  lemma WriteInv(s: State, s': State)
    requires Inv(s) && s.producer.Write? && ProducerStep(s, s')
    ensures Inv(s')
  {
    hide Blk, Off, Slot, Base, RingOn, Sized, HeadersOk, HeaderOk, LastOn, CellsOk, FlagsOk, DoneOk, CountsOk,
      ProducerOk, ConsumerOk, AllTrue;
    WriteCore(s, s');
    ShownAll(s.b, s.order, s.headers);
    ProducerKeeps(s, s');
  }

  lemma ShowTailInv(s: State, s': State)
    requires Inv(s) && s.producer.ShowTail? && ProducerStep(s, s')
    ensures Inv(s')
  {
    hide Blk, Off, Slot, Base, RingOn, Sized, HeadersOk, HeaderOk, CellsOk, FlagsOk, DoneOk, ConsumerOk, AllTrue;
    var end := s.tail + |s.producer.job.items|;
    UsedBlocks(end, end, s.b);
    BlkMono(s.tail, end, s.b);
    assert Core(s');
    ShownAll(s.b, s.order, s.headers);
    ProducerKeeps(s, s');
  }

  lemma ProducerInv(s: State, s': State)
    requires Inv(s) && Fits(s) && ProducerStep(s, s')
    ensures Inv(s')
  {
    assert Sane(s);
    hide Inv;
    match s.producer {
      case Rest =>
        var items: seq<Value> :| BeginEnqueue(s, items, s');
        RestInv(s, items, s');
      case Obtain(job, need) =>
        if need == 0 {
          ObtainedInv(s, s');
        } else if Reuses(s, job, need, s') {
          ReusesInv(s, s');
        } else if Grows(s, job, need, s') {
          GrowsInv(s, s');
        } else {
          AddsBlockInv(s, s');
        }
      case StoreBase(_, _) => StoreBaseInv(s, s');
      case StoreBlock(_, _) => StoreBlockInv(s, s');
      case Reset(_, _) => ResetInv(s, s');
      case ShowFront(_) => ShowFrontInv(s, s');
      case Write(_, _, _) => WriteInv(s, s');
      case ShowTail(_) => ShowTailInv(s, s');
    }
  }

  // ------------------------------------------------------ consumers' steps

  /** What is left to show of a step of consumer t once the core and its own part are kept. */
  lemma ConsumerKeeps(s: State, t: nat, s': State)
    requires Inv(s) && Core(s') && s'.b == s.b && t < |s.consumers| == |s'.consumers| && ConsumerOk(s', t)
    requires forall u :: 0 <= u < |s.consumers| && u != t ==> s'.consumers[u] == s.consumers[u]
    requires s'.headers == s.headers && s'.order == s.order && s'.used == s.used
    requires s.head <= s'.head && |s.claims| <= |s'.claims|
    requires forall x :: 0 <= x < |s.claims| ==> s'.claims[x] == s.claims[x]
    requires forall x: nat :: x in s'.done && x !in s.done ==> x < |s.claims| && s.claims[x] == t
    requires forall x: nat :: x in s.got ==> x in s'.got
    ensures Inv(s')
  {
    hide Blk, Off, Slot, RingOn, Sized, HeaderOk, LastOn, CellsOk, FlagsOk, ProducerOk, ConsumerOk;
    ShownAll(s.b, s.order, s.headers);
    forall u | 0 <= u < |s'.consumers| ensures ConsumerOk(s', u) {
      if u != t {
        assert Extends(s, s', u);
        ConsumerKept(s, s', u);
      }
    }
  }

  /** A step of consumer t that touches nothing but its own program counter. */
  lemma OwnPcInv(s: State, t: nat, s': State)
    requires Inv(s) && t < |s.consumers| == |s'.consumers| && s' == Goes(s, t, s'.consumers[t]) && ConsumerOk(s', t)
    ensures Inv(s')
  {
    hide Blk, Off, Slot, RingOn, Sized, HeadersOk, LastOn, CellsOk, FlagsOk, DoneOk, ConsumerOk;
    assert Core(s');
    ConsumerKeeps(s, t, s');
  }

  lemma ClaimsInv(s: State, t: nat, n: nat, s': State)
    requires Inv(s) && t < |s.consumers| && Claims(s, t, n, s')
    ensures Inv(s')
  {
    hide Blk, Off, Slot, RingOn, Sized, HeadersOk, LastOn, CellsOk, FlagsOk;
    assert Core(s');
    ConsumerKeeps(s, t, s');
  }

  lemma LoadHeaderInv(s: State, t: nat, s': State)
    requires Inv(s) && t < |s.consumers| && s.consumers[t].LoadHeader? && ConsumerStep(s, t, s')
    ensures Inv(s')
  {
    hide Blk, Off, Slot, RingOn, Sized, HeadersOk, CellsOk, FlagsOk;
    assert ConsumerOk(s, t);
    ShownInPlace(s.b, s.order, s.headers, |s.headers| - 1);
    UsedBlocks(s.consumers[t].end - 1, s.tail, s.b);
    assert s.consumers[t].i !in s.done;
    OwnPcInv(s, t, s');
  }

  lemma LoadFrontInv(s: State, t: nat, s': State)
    requires Inv(s) && t < |s.consumers| && s.consumers[t].LoadFront? && ConsumerStep(s, t, s')
    ensures Inv(s')
  {
    hide Blk, Off, Slot, RingOn, Sized, LastOn, CellsOk, FlagsOk, DoneOk;
    assert ConsumerOk(s, t);
    var i, end, h := s.consumers[t].i, s.consumers[t].end, s.consumers[t].h;
    ShownInPlace(s.b, s.order, s.headers, h);
    BlkMono(i, end - 1, s.b);
    assert Finds(s', h, i, end, s.headers[h].shown) && SlotOk(s', h, s.headers[h].shown, s.headers[h].front);
    OwnPcInv(s, t, s');
  }

  lemma LoadBaseInv(s: State, t: nat, s': State)
    requires Inv(s) && Fits(s) && t < |s.consumers| && s.consumers[t].LoadBase? && ConsumerStep(s, t, s')
    ensures Inv(s')
  {
    hide Blk, Off, Slot, Base, RingOn, Sized, LastOn, CellsOk, FlagsOk, DoneOk, SlotFrom;
    assert ConsumerOk(s, t);
    var i, end, h, f := s.consumers[t].i, s.consumers[t].end, s.consumers[t].h, s.consumers[t].f;
    var header := s.headers[h];
    var k :| Finds(s, h, i, end, k) && SlotOk(s, h, k, f);
    BlkMono(i, end - 1, s.b);
    assert HeaderOk(s.b, s.order, header);
    assert InPlace(s.b, s.order, header, k);
    BlkBase(i, s.b);
    SlotFromBases(f, Blk(i, s.b), k, s.b, header.size);
    SlotShift(k - header.origin, Blk(i, s.b) - k, header.size);
    assert Finds(s', h, i, end, Blk(end - 1, s.b)) && SlotOk(s', h, Blk(i, s.b), s'.consumers[t].slot);
    OwnPcInv(s, t, s');
  }

  lemma LoadBlockInv(s: State, t: nat, s': State)
    requires Inv(s) && t < |s.consumers| && s.consumers[t].LoadBlock? && ConsumerStep(s, t, s')
    ensures Inv(s')
  {
    hide Blk, Off, Slot, Base, RingOn, Sized, LastOn, CellsOk, FlagsOk, DoneOk;
    assert ConsumerOk(s, t);
    var i, end, h := s.consumers[t].i, s.consumers[t].end, s.consumers[t].h;
    BlkMono(i, end - 1, s.b);
    assert HeaderOk(s.b, s.order, s.headers[h]);
    assert InPlace(s.b, s.order, s.headers[h], Blk(i, s.b));
    OwnPcInv(s, t, s');
  }

  /** The cell a consumer is about to read holds the element enqueued at its index. */
  lemma ReadsValue(s: State, t: nat)
    requires Inv(s) && t < |s.consumers| && s.consumers[t].Read?
    ensures var c := s.consumers[t];
            && c.i < |s.values| && c.block < |s.cells| && |s.cells[c.block]| == s.b
            && s.cells[c.block][Off(c.i, s.b)] == s.values[c.i]
  {
    hide Blk, Off, Slot, Base, HeadersOk, LastOn, FlagsOk;
    var c := s.consumers[t];
    assert ConsumerOk(s, t);
    assert c.i !in s.done;
    RingOrder(|s.cells|, s.next, s.tailBlock, s.order, s.used, Blk(c.i, s.b));
    assert CellAt(s.cells, s.order, Blk(c.i, s.b), Off(c.i, s.b), s.values[c.i] - 1) == s.values[c.i];
  }

  lemma ReadPc(s: State, t: nat, s': State)
    requires Inv(s) && t < |s.consumers| && s.consumers[t].Read? && ConsumerStep(s, t, s')
    requires Sane(s')
    ensures ConsumerOk(s', t)
  {
    hide Blk, Off, Slot, Base, RingOn, Sized, HeadersOk, LastOn, CellsOk, FlagsOk, DoneOk, ProducerOk;
    assert ConsumerOk(s, t);
    BlkNext(s.consumers[t].i, s.b);
  }

  lemma ReadInv(s: State, t: nat, s': State)
    requires Inv(s) && t < |s.consumers| && s.consumers[t].Read? && ConsumerStep(s, t, s')
    ensures Inv(s')
  {
    hide Blk, Off, Slot, Base, RingOn, Sized, HeadersOk, LastOn, CellsOk, FlagsOk, ConsumerOk;
    ReadsValue(s, t);
    assert Core(s');
    ReadPc(s, t, s');
    ConsumerKeeps(s, t, s');
  }

  lemma FlagsSet(b: nat, empty: seq<seq<bool>>, order: seq<nat>, oldest: int, ready: nat, done: set<nat>, block: nat,
      x: nat)
    requires b > 0 && FlagsOk(b, empty, order, oldest, ready, done) && Sized(b, empty)
    requires 0 <= oldest <= Blk(x, b) < |order| && block == order[Blk(x, b)] < |empty|
    requires forall k :: oldest <= k < |order| && k != Blk(x, b) ==> order[k] != block
    ensures var empty' := empty[block := empty[block][b - 1 - Off(x, b) := true]];
            FlagsOk(b, empty', order, oldest, ready, done + {x}) && Sized(b, empty')
  {
    hide Blk, Off;
    var flag := b - 1 - Off(x, b);
    var empty' := empty[block := empty[block][flag := true]];
    var done' := done + {x};
    forall i: nat | oldest <= Blk(i, b) < ready
      ensures CellAt(empty', order, Blk(i, b), b - 1 - Off(i, b), i !in done') <==> i in done'
    {
      assert CellAt(empty, order, Blk(i, b), b - 1 - Off(i, b), i !in done) <==> i in done;
      if Blk(i, b) == Blk(x, b) {
        BlkInj(i, x, b);
      }
    }
  }

  /** The flag a consumer is about to set is that of an index it has read, and is not set yet. */
  lemma FlagIsFree(s: State, t: nat)
    requires Inv(s) && t < |s.consumers| && s.consumers[t].SetEmpty?
    ensures var c := s.consumers[t];
            var x := c.to - 1 - c.n;
            && Oldest(s) <= Blk(x, s.b) == Blk(c.from, s.b) < |s.order|
            && c.from <= x < s.head && x !in s.done && x in s.got && s.claims[x] == t
            && s.b - 1 - Off(c.from, s.b) - (c.to - c.from) + 1 + c.n == s.b - 1 - Off(x, s.b)
            && c.block < |s.empty| && |s.empty[c.block]| == s.b && !s.empty[c.block][s.b - 1 - Off(x, s.b)]
  {
    hide Blk, Off, Slot, Base, HeadersOk, LastOn, CellsOk, FlagsOk, RingOn, ProducerOk, AllTrue;
    var c := s.consumers[t];
    var x := c.to - 1 - c.n;
    assert ConsumerOk(s, t);
    BlkMono(c.from, x, s.b);
    BlkMono(x, c.to - 1, s.b);
    BlkInj(c.from, x, s.b);
    UsedBlocks(x, s.tail, s.b);
    RingOrder(|s.cells|, s.next, s.tailBlock, s.order, s.used, Blk(x, s.b));
    FlagIs(s, x);
  }

  /** A claimed index, not consumed, in a block in the ring, has its flag clear. */
  lemma FlagIs(s: State, x: nat)
    requires Core(s) && x < s.tail && Oldest(s) <= Blk(x, s.b) < |s.order| && x !in s.done
    requires s.order[Blk(x, s.b)] < |s.empty|
    ensures |s.empty[s.order[Blk(x, s.b)]]| == s.b && !s.empty[s.order[Blk(x, s.b)]][s.b - 1 - Off(x, s.b)]
  {
    hide Blk, Off, Slot, Base, HeadersOk, LastOn, CellsOk, RingOn, AllTrue;
    UsedBlocks(x, s.tail, s.b);
    BlkMono(0, x, s.b);
    assert CellAt(s.empty, s.order, Blk(x, s.b), s.b - 1 - Off(x, s.b), x !in s.done) <==> x in s.done;
  }

  lemma SetEmptyCore(s: State, t: nat, s': State)
    requires Inv(s) && t < |s.consumers| && s.consumers[t].SetEmpty? && ConsumerStep(s, t, s')
    ensures Core(s')
  {
    hide Blk, Off, Slot, Base, RingOn, Sized, HeadersOk, LastOn, CellsOk, FlagsOk, ConsumerOk;
    var c := s.consumers[t];
    var x := c.to - 1 - c.n;
    FlagIsFree(s, t);
    RingFacts(|s.cells|, s.next, s.tailBlock, s.order, s.used);
    RingOrder(|s.cells|, s.next, s.tailBlock, s.order, s.used, Blk(x, s.b));
    IsOwnBlock(s, t);
    FlagsSet(s.b, s.empty, s.order, Oldest(s), s.ready, s.done, c.block, x);
  }

  lemma IsOwnBlock(s: State, t: nat)
    requires Inv(s) && t < |s.consumers| && s.consumers[t].SetEmpty?
    ensures IsBlock(s, s.consumers[t].block, Blk(s.consumers[t].from, s.b)) || Blk(s.consumers[t].from, s.b) < Oldest(s)
  {
    hide Blk, Off, Slot, Base, RingOn, Sized, HeadersOk, LastOn, CellsOk, FlagsOk;
    assert ConsumerOk(s, t);
  }

  lemma SetEmptyPc(s: State, t: nat, s': State)
    requires Inv(s) && t < |s.consumers| && s.consumers[t].SetEmpty? && ConsumerStep(s, t, s')
    requires Sane(s')
    ensures ConsumerOk(s', t)
  {
    hide Blk, Off, Slot, Base, RingOn, Sized, HeadersOk, LastOn, CellsOk, FlagsOk, DoneOk, ProducerOk;
    var c := s.consumers[t];
    assert ConsumerOk(s, t);
    BlkNext(c.to - 1, s.b);
    if c.to < c.end {
      BlkMono(c.to, c.end - 1, s.b);
      SlotShift(Blk(c.from, s.b) - s.headers[c.h].origin, 1, s.headers[c.h].size);
    }
  }

  lemma SetEmptyInv(s: State, t: nat, s': State)
    requires Inv(s) && t < |s.consumers| && s.consumers[t].SetEmpty? && ConsumerStep(s, t, s')
    ensures Inv(s')
  {
    hide Blk, Off, Slot, Base, RingOn, Sized, HeadersOk, LastOn, CellsOk, FlagsOk, DoneOk, ProducerOk, ConsumerOk;
    SetEmptyCore(s, t, s');
    FlagIsFree(s, t);
    SetEmptyPc(s, t, s');
    ConsumerKeeps(s, t, s');
  }

  lemma ConsumerInv(s: State, t: nat, s': State)
    requires Inv(s) && Fits(s) && t < |s.consumers| && ConsumerStep(s, t, s')
    ensures Inv(s')
  {
    assert Sane(s);
    hide Inv;
    match s.consumers[t] {
      case Away =>
        var n: nat :| Claims(s, t, n, s');
        ClaimsInv(s, t, n, s');
      case LoadHeader(_, _) => LoadHeaderInv(s, t, s');
      case LoadFront(_, _, _) => LoadFrontInv(s, t, s');
      case LoadBase(_, _, _, _) => LoadBaseInv(s, t, s');
      case LoadBlock(_, _, _, _) => LoadBlockInv(s, t, s');
      case Read(_, _, _, _, _, _) => ReadInv(s, t, s');
      case SetEmpty(_, _, _, _, _, _, _) => SetEmptyInv(s, t, s');
    }
  }

  // ------------------------------------------------------------ main results

  lemma InitInv(s: State)
    requires Init(s)
    ensures Inv(s)
  {
    DivMod(-1, s.b, -1, s.b - 1);
    DivMod(0, s.b, 0, 0);
    SlotSmall(0, InitialSize);
    forall i: nat ensures Blk(i, s.b) >= 0 { BlkMono(0, i, s.b); }
    assert HeaderOk(s.b, s.order, s.headers[0]);
    assert s.got.Keys == {};
  }

  lemma StepInv(s: State, s': State)
    requires Inv(s) && Fits(s) && Next(s, s')
    ensures Inv(s')
  {
    hide Inv, ProducerStep, ConsumerStep;
    if ProducerStep(s, s') {
      ProducerInv(s, s');
    } else {
      var t: nat :| t < |s.consumers| && ConsumerStep(s, t, s');
      ConsumerInv(s, t, s');
    }
  }

  lemma {:induction false} RunInv(run: seq<State>, i: nat)
    requires Run(run) && i < |run|
    ensures Inv(run[i])
  {
    hide Inv, ProducerStep, ConsumerStep;
    if i == 0 {
      InitInv(run[0]);
    } else {
      RunInv(run, i - 1);
      assert Next(run[i - 1], run[i - 1 + 1]);
      StepInv(run[i - 1], run[i]);
    }
  }

  ghost predicate Reachable(s: State) {
    exists run: seq<State> :: Run(run) && run[|run| - 1] == s
  }

  lemma ReachableInv(s: State)
    requires Reachable(s)
    ensures Inv(s) && Fits(s)
  {
    hide Inv;
    var run: seq<State> :| Run(run) && run[|run| - 1] == s;
    RunInv(run, |run| - 1);
  }

  /** A queue: what a consumer reads at an index is the element that was enqueued at that index,
      through any reuse of blocks, doubling of the index and wrap-around of the bases; and every
      index that has been flagged as consumed had been claimed and read. */
  lemma Fifo(s: State, i: nat)
    requires Reachable(s)
    ensures i in s.got ==> i < |s.values| && s.got[i] == s.values[i]
    ensures i in s.done ==> i < s.head <= s.tail && i in s.got
  {
    ReachableInv(s);
  }

  /** ... and the elements are in the order of the enqueue calls: publishing the tail makes the
      published elements longer by exactly the items of the call. */
  lemma TailPublishesItems(s: State, s': State)
    requires Reachable(s) && Sane(s) && ProducerStep(s, s')
    ensures s.tail <= |s.values| && s'.tail <= |s'.values|
    ensures if s.producer.ShowTail?
            then s'.values[..s'.tail] == s.values[..s.tail] + s.producer.job.items
            else s'.values[..s'.tail] == s.values[..s.tail]
  {
    hide Inv, ProducerStep;
    ReachableInv(s);
    ProducerInv(s, s');
    Counts(s);
    Counts(s');
    ValuesGrow(s, s');
    if s.producer.ShowTail? {
      assert s.values == s.values[..s.tail] + s.values[s.tail..];
    } else {
      assert s'.values[..s.tail] == s'.values[..|s.values|][..s.tail];
    }
  }

  lemma Counts(s: State)
    requires Inv(s)
    ensures s.tail <= |s.values|
    ensures s.producer.ShowTail? ==> s.values[s.tail..] == s.producer.job.items
  {
    hide Blk, Off, Slot, Base, RingOn, Sized, HeadersOk, LastOn, CellsOk, FlagsOk, DoneOk, ConsumerOk, AllTrue;
    if s.producer.ShowTail? {
      var items := s.producer.job.items;
      assert items[..|items|] == items;
    }
  }

  lemma ValuesGrow(s: State, s': State)
    requires Sane(s) && ProducerStep(s, s')
    ensures |s.values| <= |s'.values| && s'.values[..|s.values|] == s.values
    ensures s'.tail == if s.producer.ShowTail? then s.tail + |s.producer.job.items| else s.tail
    ensures s.producer.ShowTail? ==> s'.values == s.values
  {
    hide Blk, Off, Slot, Base, AllTrue, Doubled;
  }

  /** The slot a consumer computes names the block its index was written to, until the consumer has
      flagged the index: the entry there has not been overwritten, in whichever index array. */
  lemma SlotNamesBlock(s: State, t: nat)
    requires Reachable(s) && t < |s.consumers| && s.consumers[t].LoadBlock?
    ensures var c := s.consumers[t];
            && s.b > 0 && c.h < |s.headers| && c.slot < |s.headers[c.h].entries|
            && 0 <= Blk(c.i, s.b) < |s.order|
            && EntryAt(s.headers[c.h], c.slot) == Entry(Word(Blk(c.i, s.b) * s.b), s.order[Blk(c.i, s.b)])
            && Oldest(s) <= Blk(c.i, s.b)
  {
    hide Blk, Off, Slot, Word, RingOn, Sized, LastOn, CellsOk, FlagsOk, ProducerOk;
    ReachableInv(s);
    var c := s.consumers[t];
    assert ConsumerOk(s, t);
    assert c.i !in s.done;
    BlkMono(c.i, c.end - 1, s.b);
    assert HeaderOk(s.b, s.order, s.headers[c.h]);
    assert InPlace(s.b, s.order, s.headers[c.h], Blk(c.i, s.b));
  }

  /** The assertion of set_empty and set_many_empty: a flag is set once only. */
  lemma FlagSetOnce(s: State, t: nat)
    requires Reachable(s) && t < |s.consumers| && s.consumers[t].SetEmpty?
    ensures var c := s.consumers[t];
            var flag := s.b - 1 - Off(c.from, s.b) - (c.to - c.from) + 1 + c.n;
            c.block < |s.empty| && 0 <= flag < |s.empty[c.block]| && !s.empty[c.block][flag]
  {
    hide Blk, Off, Slot, Base, RingOn, Sized, HeadersOk, LastOn, CellsOk, FlagsOk, DoneOk, ProducerOk, ConsumerOk;
    ReachableInv(s);
    FlagIsFree(s, t);
  }

  /** A block is used again only after every element in it has been consumed. */
  lemma ReuseIsSafe(s: State, s': State, i: nat)
    requires Reachable(s) && Sane(s) && s.producer.Obtain? && Reuses(s, s.producer.job, s.producer.need, s')
    requires Blk(i, s.b) < Oldest(s')
    ensures i in s.done
  {
    ReachableInv(s);
    ReusesOld(s);
  }

  // ------------------------------------------ a call that returns has published

  /** The items of the call under way, if there is one. */
  function Outstanding(p: Producer): seq<Value> {
    if p.Rest? then [] else p.job.items
  }

  ghost predicate Accounted(s: State) {
    && s.head <= s.tail <= |s.values| && s.accepted == s.values[..s.tail] + Outstanding(s.producer)
    && (forall i :: i in s.got ==> i < s.head)
  }

  /** Until its last step a call publishes nothing, and keeps its items. */
  lemma CallGoesOn(s: State, s': State)
    requires Sane(s) && ProducerStep(s, s') && !s.producer.Rest? && !s.producer.ShowTail?
    ensures s'.accepted == s.accepted && Outstanding(s'.producer) == Outstanding(s.producer)
  {
    hide Blk, Off, Slot, Base, AllTrue, Doubled, Repeat, EntryAt, SetEntry;
  }

  lemma ProducerAccounted(s: State, s': State)
    requires Inv(s) && Sane(s) && Accounted(s) && ProducerStep(s, s')
    ensures Accounted(s')
  {
    hide Inv, ProducerStep;
    Counts(s);
    SameClaims(s, s');
    ValuesGrow(s, s');
    if s.producer.Rest? {
      CallBegins(s, s');
    } else if s.producer.ShowTail? {
      CallEnds(s, s');
      assert s.values == s.values[..s.tail] + s.values[s.tail..];
    } else {
      CallGoesOn(s, s');
      assert s'.values[..s.tail] == s'.values[..|s.values|][..s.tail];
    }
  }

  lemma CallBegins(s: State, s': State)
    requires Sane(s) && s.producer.Rest? && ProducerStep(s, s')
    ensures s'.accepted == s.accepted + Outstanding(s'.producer) && s'.values == s.values
  {
  }

  lemma CallEnds(s: State, s': State)
    requires Sane(s) && s.producer.ShowTail? && ProducerStep(s, s')
    ensures s'.accepted == s.accepted && s'.producer == Rest
  {
  }

  lemma SameClaims(s: State, s': State)
    requires Sane(s) && ProducerStep(s, s')
    ensures s'.got == s.got && s'.head == s.head && s'.tail >= s.tail
  {
    hide Blk, Off, Slot, Base, AllTrue, Doubled, Repeat, EntryAt, SetEntry;
  }

  /** A consumer reads at an index it has claimed. */
  lemma ReadsClaimed(s: State, t: nat)
    requires Inv(s) && t < |s.consumers| && s.consumers[t].Read?
    ensures s.consumers[t].i < s.head
  {
    hide Core, Blk, Off, Slot;
    Sanity(s);
    assert ConsumerOk(s, t);
  }

  lemma ConsumerAccounted(s: State, t: nat, s': State)
    requires Inv(s) && Sane(s) && Accounted(s) && t < |s.consumers| && ConsumerStep(s, t, s')
    ensures Accounted(s')
  {
    hide Inv, Blk, Off, Slot, SlotFrom, EntryAt, AllTrue;
    if s.consumers[t].Read? {
      ReadsClaimed(s, t);
    }
    assert s'.values == s.values && s'.tail == s.tail && s'.producer == s.producer && s'.accepted == s.accepted;
  }

  lemma {:induction false} RunAccounted(run: seq<State>)
    requires Run(run)
    ensures Accounted(run[|run| - 1])
  {
    hide Inv, Accounted, Fits, ProducerStep, ConsumerStep;
    if |run| == 1 {
      assert Accounted(run[0]) by { InitAccounted(run[0]); }
    } else {
      var shorter := run[..|run| - 1];
      RunAccounted(shorter);
      RunInv(shorter, |run| - 2);
      var s, s' := run[|run| - 2], run[|run| - 1];
      assert Next(s, s');
      if ProducerStep(s, s') {
        ProducerAccounted(s, s');
      } else {
        var t: nat :| t < |s.consumers| && ConsumerStep(s, t, s');
        ConsumerAccounted(s, t, s');
      }
    }
  }

  lemma InitAccounted(s: State)
    requires Init(s)
    ensures Accounted(s)
  {
  }

  /** Between calls everything accepted so far is published, in order; during a call, all but the items
      of that call, which are the last.  What is read at an index is the item accepted there. */
  lemma AcceptedIsPublished(s: State)
    requires Reachable(s)
    ensures s.tail <= |s.values| && s.accepted == s.values[..s.tail] + Outstanding(s.producer)
    ensures s.producer == Rest ==> s.values[..s.tail] == s.accepted
    ensures forall i :: i in s.got ==> i < |s.accepted| && s.got[i] == s.accepted[i]
  {
    var run: seq<State> :| Run(run) && run[|run| - 1] == s;
    RunAccounted(run);
    hide Run, Reachable;
    forall i | i in s.got ensures i < |s.accepted| && s.got[i] == s.accepted[i] {
      Fifo(s, i);
    }
  }

  // ------------------------------------------------- nothing is left behind

  predicate InJob(c: Consumer, x: nat) {
    match c
    case Away => false
    case LoadHeader(i, end) => i <= x < end
    case LoadFront(i, end, _) => i <= x < end
    case LoadBase(i, end, _, _) => i <= x < end
    case LoadBlock(i, end, _, _) => i <= x < end
    case Read(from, _, end, _, _, _) => from <= x < end
    case SetEmpty(from, to, n, end, _, _, _) => from <= x < end && !(to - n <= x < to)
  }

  predicate Holds(consumers: seq<Consumer>, t: nat, x: nat) {
    t < |consumers| && InJob(consumers[t], x)
  }

  /** An index claimed and not flagged is one its consumer still has to process. */
  ghost predicate Held(s: State) {
    forall x :: 0 <= x < |s.claims| && x !in s.done ==> Holds(s.consumers, s.claims[x], x)
  }

  lemma ProducerHeld(s: State, s': State)
    requires Held(s) && Sane(s) && ProducerStep(s, s')
    ensures Held(s')
  {
    hide Holds, Blk, Off, Slot, Base, AllTrue, Doubled, Repeat;
    assert s'.claims == s.claims && s'.done == s.done && s'.consumers == s.consumers;
  }

  /** A consumer that goes on with the indices it has, less those flagged. */
  lemma MovesHeld(s: State, t: nat, s': State)
    requires Held(s) && t < |s.consumers| && s'.claims == s.claims && s.done <= s'.done
    requires |s'.consumers| == |s.consumers| && forall u :: 0 <= u < |s.consumers| && u != t ==>
             s'.consumers[u] == s.consumers[u]
    requires forall x: nat :: InJob(s.consumers[t], x) && x !in s'.done ==> InJob(s'.consumers[t], x)
    ensures Held(s')
  {
    hide InJob;
    forall x | 0 <= x < |s'.claims| && x !in s'.done ensures Holds(s'.consumers, s'.claims[x], x) {
      assert Holds(s.consumers, s.claims[x], x);
    }
  }

  lemma ClaimHeld(s: State, t: nat, n: nat, s': State)
    requires Held(s) && t < |s.consumers| && Claims(s, t, n, s') && |s.claims| == s.head
    ensures Held(s')
  {
    forall x | 0 <= x < |s'.claims| && x !in s'.done ensures Holds(s'.consumers, s'.claims[x], x) {
      assert x < s.head ==> Holds(s.consumers, s.claims[x], x);
    }
  }

  lemma FlagHeld(s: State, t: nat, s': State)
    requires Held(s) && Sane(s) && t < |s.consumers| && s.consumers[t].SetEmpty? && ConsumerStep(s, t, s')
    requires ConsumerOk(s, t)
    ensures Held(s')
  {
    assert s.consumers[t].to <= s.consumers[t].end by { hide Blk, Off, Slot, Owns, Finds; }
    assert forall x: nat :: InJob(s.consumers[t], x) && x !in s'.done ==> InJob(s'.consumers[t], x) by {
      hide Blk, Off, Slot;
    }
    hide Blk, Off, Slot, Held;
    MovesHeld(s, t, s');
  }

  lemma LoadHeld(s: State, t: nat, s': State)
    requires Held(s) && Sane(s) && t < |s.consumers| && ConsumerStep(s, t, s')
    requires var c := s.consumers[t]; c.LoadHeader? || c.LoadFront? || c.LoadBase? || c.LoadBlock?
    ensures Held(s')
  {
    hide Held, Sane, Blk, Off, Slot, SlotFrom, Word, EntryAt;
    MovesHeld(s, t, s');
  }

  lemma ReadHeld(s: State, t: nat, s': State)
    requires Held(s) && Sane(s) && t < |s.consumers| && s.consumers[t].Read? && ConsumerStep(s, t, s')
    ensures Held(s')
  {
    hide Held, Sane, Blk, Off, Slot;
    MovesHeld(s, t, s');
  }

  lemma Sanity(s: State)
    requires Inv(s)
    ensures Sane(s) && CountsOk(s)
    ensures forall t :: 0 <= t < |s.consumers| ==> ConsumerOk(s, t)
  {
    hide ConsumerOk;
  }

  lemma ConsumerHeld(s: State, t: nat, s': State)
    requires Held(s) && Inv(s) && t < |s.consumers| && ConsumerStep(s, t, s')
    ensures Held(s')
  {
    Sanity(s);
    hide Inv, Held, ConsumerOk, Sane;
    if s.consumers[t].Away? {
      var n: nat :| Claims(s, t, n, s');
      ClaimHeld(s, t, n, s');
    } else {
      hide ConsumerStep;
      if s.consumers[t].SetEmpty? {
        FlagHeld(s, t, s');
      } else if s.consumers[t].Read? {
        ReadHeld(s, t, s');
      } else {
        LoadHeld(s, t, s');
      }
    }
  }

  lemma {:induction false} RunHeld(run: seq<State>)
    requires Run(run)
    ensures Held(run[|run| - 1])
  {
    hide Inv, Held, Fits, ProducerStep, ConsumerStep;
    if |run| == 1 {
      assert Held(run[0]) by { InitHeld(run[0]); }
    } else {
      var shorter := run[..|run| - 1];
      RunHeld(shorter);
      RunInv(shorter, |run| - 2);
      var s, s' := run[|run| - 2], run[|run| - 1];
      assert Next(s, s');
      if ProducerStep(s, s') {
        ProducerHeld(s, s');
      } else {
        var t: nat :| t < |s.consumers| && ConsumerStep(s, t, s');
        ConsumerHeld(s, t, s');
      }
    }
  }

  lemma InitHeld(s: State)
    requires Init(s)
    ensures Held(s)
  {
  }

  /** Once a consumer has finished, everything it claimed has been read, and read right. */
  lemma ClaimedIsRead(s: State, i: nat)
    requires Reachable(s) && i < s.head
    ensures |s.claims| == s.head <= |s.values|
    ensures s.claims[i] < |s.consumers| && s.consumers[s.claims[i]] == Away ==> i in s.got && s.got[i] == s.values[i]
  {
    ReachableInv(s);
    var run: seq<State> :| Run(run) && run[|run| - 1] == s;
    RunHeld(run);
    hide Run, Reachable, Blk, Off, Slot, Base, RingOn, Sized, HeadersOk, LastOn, CellsOk, FlagsOk, ConsumerOk,
      ProducerOk;
    assert i !in s.done ==> Holds(s.consumers, s.claims[i], i);
  }

  lemma HeaderLength(s: State, h: nat)
    requires Core(s) && h < |s.headers|
    ensures |s.headers[h].entries| == s.headers[h].size
  {
    hide RingOn, Sized, LastOn, CellsOk, FlagsOk, DoneOk, ProducerOk;
    assert HeaderOk(s.b, s.order, s.headers[h]);
  }

  lemma CanLoad(s: State, t: nat) returns (s': State)
    requires Core(s) && Sane(s) && t < |s.consumers| && ConsumerOk(s, t)
    requires var c := s.consumers[t]; c.LoadHeader? || c.LoadFront? || c.LoadBase? || c.LoadBlock?
    ensures ConsumerStep(s, t, s')
  {
    hide Core, Blk, Off, SlotFrom, Word, EntryAt, Owns, AllTrue;
    match s.consumers[t] {
      case LoadHeader(i, end) => s' := Goes(s, t, LoadFront(i, end, |s.headers| - 1));
      case LoadFront(i, end, h) => s' := Goes(s, t, LoadBase(i, end, h, s.headers[h].front));
      case LoadBase(i, end, h, f) =>
        HeaderLength(s, h);
        var slot := SlotFrom(f, Word(i - Off(i, s.b)), EntryAt(s.headers[h], f).base, s.b, s.headers[h].size);
        s' := Goes(s, t, LoadBlock(i, end, h, slot));
      case LoadBlock(i, end, h, slot) =>
        HeaderLength(s, h);
        s' := Goes(s, t, Read(i, i, end, h, slot, EntryAt(s.headers[h], slot).block));
    }
  }

  lemma CanReadCell(s: State, t: nat) returns (s': State)
    requires Sane(s) && t < |s.consumers| && s.consumers[t].Read?
    requires s.consumers[t].block < |s.cells| && |s.cells[s.consumers[t].block]| == s.b
    ensures ConsumerStep(s, t, s')
  {
    hide Blk, Off;
    var c := s.consumers[t];
    var next := if c.i + 1 == c.end || Off(c.i + 1, s.b) == 0
                then SetEmpty(c.from, c.i + 1, 0, c.end, c.h, c.slot, c.block)
                else Read(c.from, c.i + 1, c.end, c.h, c.slot, c.block);
    s' := Goes(s, t, next).(got := s.got[c.i := s.cells[c.block][Off(c.i, s.b)]]);
  }

  lemma CanRead(s: State, t: nat) returns (s': State)
    requires Inv(s) && t < |s.consumers| && s.consumers[t].Read?
    ensures Sane(s) && ConsumerStep(s, t, s')
  {
    hide Inv, ConsumerOk, Off, Sane, ConsumerStep;
    Sanity(s);
    ReadsValue(s, t);
    s' := CanReadCell(s, t);
  }

  lemma FlagFacts(s: State, t: nat)
    requires Inv(s) && t < |s.consumers| && s.consumers[t].SetEmpty?
    ensures var c := s.consumers[t];
            && s.b > 0 && c.block < |s.empty| && c.n < c.to - c.from && c.h < |s.headers| && s.headers[c.h].size > 0
            && 0 <= s.b - 1 - Off(c.from, s.b) - (c.to - c.from) + 1 + c.n < |s.empty[c.block]|
  {
    FlagIsFree(s, t);
    assert ConsumerOk(s, t);
    hide Core, Blk, Off, Slot, Owns;
  }

  lemma CanFlag(s: State, t: nat) returns (s': State)
    requires Inv(s) && t < |s.consumers| && s.consumers[t].SetEmpty?
    ensures Sane(s) && ConsumerStep(s, t, s')
  {
    FlagFacts(s, t);
    assert Sane(s);
    hide Inv, Blk, Off, Slot, Sane;
    var c := s.consumers[t];
    var flag := s.b - 1 - Off(c.from, s.b) - (c.to - c.from) + 1 + c.n;
    s' := Goes(s, t, if c.n + 1 < c.to - c.from then SetEmpty(c.from, c.to, c.n + 1, c.end, c.h, c.slot, c.block)
                     else if c.to == c.end then Away
                     else LoadBlock(c.to, c.end, c.h, Slot(c.slot + 1, s.headers[c.h].size))).(
      empty := s.empty[c.block := s.empty[c.block][flag := true]], done := s.done + {c.to - 1 - c.n});
  }

  /** No pointer a consumer follows leads astray: each dequeue under way has a next step. */
  lemma ConsumerNotStuck(s: State, t: nat) returns (s': State)
    requires Reachable(s) && t < |s.consumers| && s.consumers[t] != Away
    ensures Sane(s) && ConsumerStep(s, t, s')
  {
    ReachableInv(s);
    assert Core(s) && Sane(s) && ConsumerOk(s, t);
    hide *;
    match s.consumers[t] {
      case Read(_, _, _, _, _, _) => s' := CanRead(s, t);
      case SetEmpty(_, _, _, _, _, _, _) => s' := CanFlag(s, t);
      case _ => s' := CanLoad(s, t);
    }
  }

  /** Without a new block there is the block the call began in, if there is anything to write. */
  predicate StartsSomewhere(s: State)
    requires s.producer.Obtain?
  {
    var job := s.producer.job;
    s.producer.need == 0 ==> job.items == [] || job.first >= 0 || job.start >= 0
  }

  lemma HasStart(s: State)
    requires Core(s) && s.producer.Obtain?
    ensures StartsSomewhere(s)
  {
    hide Blk, Off, Slot, Base, RingOn, Sized, HeadersOk, LastOn, CellsOk, FlagsOk, DoneOk, AllTrue;
    UsedBlocks(0, s.tail + |s.producer.job.items|, s.b);
  }

  lemma CanObtain(s: State) returns (s': State)
    requires Sane(s) && s.producer.Obtain? && s.used <= s.size == |Last(s).entries| && StartsSomewhere(s)
    ensures ProducerStep(s, s')
  {
    hide Blk, Base, Slot, AllTrue;
    var job, need := s.producer.job, s.producer.need;
    if need == 0 {
      s' := s.(producer := if job.items == [] then ShowTail(job)
                           else if job.first >= 0 then Reset(job, job.first)
                           else Write(job, 0, job.start));
    } else if CanReuse(s, job) {
      var block := s.next[s.tailBlock];
      s' := WithLast(s, Last(s).(lo := Last(s).lo + 1)).(
        tailBlock := block, order := s.order + [block], producer := StoreBase(FirstOr(job, block), need));
      assert Reuses(s, job, need, s');
    } else if s.used == s.size {
      s' := CanGrow(s);
    } else {
      var block := |s.cells|;
      var next := if s.tailBlock < 0 then s.next + [block]
                  else (s.next + [s.next[s.tailBlock]])[s.tailBlock := block];
      s' := s.(
        cells := s.cells + [Repeat(s.b, 0)], empty := s.empty + [Repeat(s.b, true)], next := next,
        tailBlock := block, used := s.used + 1, order := s.order + [block],
        producer := StoreBase(FirstOr(job, block), need));
      assert AddsBlock(s, job, need, s');
    }
  }

  lemma CanGrow(s: State) returns (s': State)
    requires Sane(s) && s.producer.Obtain? && s.producer.need > 0 && s.used == s.size == |Last(s).entries|
    requires !CanReuse(s, s.producer.job)
    ensures Grows(s, s.producer.job, s.producer.need, s')
  {
    hide Slot, CanReuse;
    var job, origin := s.producer.job, |s.order| - s.used;
    var old' := Last(s).entries;
    var entries := seq(s.size, j requires 0 <= j < s.size => old'[Slot(s.front - s.used + j, s.size)]) + old';
    assert Doubled(s, entries);
    s' := s.(
      size := 2 * s.size, front := s.used,
      headers := s.headers + [Header(2 * s.size, Word(job.orig - 1), entries, origin, origin, |s.order|,
        origin + job.orig - 1)]);
    assert s'.headers[|s.headers|].entries == entries;
  }

  lemma LastSizes(s: State)
    requires Core(s)
    ensures s.used <= s.size == |Last(s).entries| && Completed(s) >= 0 && 0 <= s.front < s.size
  {
    hide Blk, Off, Slot, Base, RingOn, Sized, CellsOk, FlagsOk, DoneOk, ProducerOk, AllTrue;
    assert HeaderOk(s.b, s.order, Last(s));
  }

  lemma CanStore(s: State) returns (s': State)
    requires Core(s) && (s.producer.StoreBase? || s.producer.StoreBlock?)
    ensures Sane(s) && ProducerStep(s, s')
  {
    LastSizes(s);
    hide Blk, Off, Slot, Base, RingOn, Sized, HeadersOk, LastOn, CellsOk, FlagsOk, DoneOk, SetEntry, EntryAt, AllTrue;
    RingFacts(|s.cells|, s.next, s.tailBlock, s.order, s.used);
    match s.producer {
      case StoreBase(job, need) =>
        var e := EntryAt(Last(s), s.front).(base := Base(Adding(s, job, need), s.b));
        s' := WithLast(s, SetEntry(Last(s), s.front, e)).(producer := StoreBlock(job, need));
      case StoreBlock(job, need) =>
        var e := EntryAt(Last(s), s.front).(block := s.tailBlock);
        s' := WithLast(s, SetEntry(Last(s), s.front, e).(hi := Last(s).hi + 1)).(
          front := Slot(s.front + 1, s.size), producer := Obtain(job, need - 1));
    }
  }

  lemma CanPublish(s: State) returns (s': State)
    requires Core(s) && (s.producer.Reset? || s.producer.ShowFront? || s.producer.ShowTail?)
    ensures Sane(s) && ProducerStep(s, s')
  {
    hide Blk, Off, Slot, Base, RingOn, Sized, HeadersOk, LastOn, CellsOk, FlagsOk, DoneOk, AllTrue, Repeat;
    match s.producer {
      case Reset(job, cur) =>
        RingFacts(|s.cells|, s.next, s.tailBlock, s.order, s.used);
        s' := s.(
          empty := s.empty[cur := Repeat(s.b, false)], ready := s.ready + 1,
          producer := if cur == s.tailBlock then ShowFront(job) else Reset(job, s.next[cur]));
      case ShowFront(job) =>
        s' := WithLast(s, Last(s).(front := Slot(s.front - 1, s.size), shown := |s.order| - 1)).(
          producer := Write(job, 0, if Off(s.tail, s.b) == 0 || job.start < 0 then job.first else job.start));
      case ShowTail(job) => s' := s.(tail := s.tail + |job.items|, producer := Rest);
    }
  }

  lemma CanWrite(s: State) returns (s': State)
    requires Core(s) && s.producer.Write?
    ensures Sane(s) && ProducerStep(s, s')
  {
    hide Blk, Off, Slot, Base, RingOn, HeadersOk, LastOn, CellsOk, FlagsOk, DoneOk, AllTrue;
    RingFacts(|s.cells|, s.next, s.tailBlock, s.order, s.used);
    var job, n, block := s.producer.job, s.producer.n, s.producer.block;
    var i := s.tail + n;
    s' := s.(
      cells := s.cells[block := s.cells[block][Off(i, s.b) := job.items[n]]],
      values := s.values + [job.items[n]],
      producer := if n + 1 == |job.items| then ShowTail(job)
                  else Write(job, n + 1, if Off(i + 1, s.b) == 0 then s.next[block] else block));
  }

  /** Nor does one the producer follows. */
  lemma ProducerNotStuck(s: State) returns (s': State)
    requires Reachable(s) && s.producer != Rest
    ensures Sane(s) && ProducerStep(s, s')
  {
    ReachableInv(s);
    assert Core(s) && Sane(s);
    hide *;
    match s.producer {
      case Obtain(_, _) =>
        LastSizes(s);
        HasStart(s);
        s' := CanObtain(s);
      case StoreBase(_, _) => s' := CanStore(s);
      case StoreBlock(_, _) => s' := CanStore(s);
      case Write(_, _, _) => s' := CanWrite(s);
      case _ => s' := CanPublish(s);
    }
  }
}
