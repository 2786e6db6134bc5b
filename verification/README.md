# Verified models of the schedulers' algorithms

This project models the concurrent algorithms behind a set of C++ task schedulers, and proves what
their comments and documentation argue informally. It covers the lock-free queue (moodycamel's
`ConcurrentQueue` and its blocking variant), the Async++ task library with its work-stealing pool,
the TBB containers used beside it, a Go-style channel, and the repository's own serial contexts on
a pool of threads.

## How the models are made

A concurrent algorithm is a state machine: the shared words, one program counter per thread with the
locals it still needs, and one access to shared memory per step. The function `Access` (or a step
relation where a step has choices) follows the code line by line; `Run` is any interleaving of any
number of threads, from the initial state on; a state is `Reachable` when some run leads to it. The
main results hold in every reachable state. Fields marked as history record what has happened; no
step decides anything by them. Interleavings are sequentially consistent.

A sequential algorithm is a class with the fields of the original, methods with the original's loops,
and a specification in terms of a value: a map for the hash table, a multiset and a legal history for
the priority queue, a sequence for the ring buffer, a fold for map-reduce.

| module | models | main idea |
|---|---|---|
| `Words` | index arithmetic on 64-bit words | when a comparison, a signed conversion or a slot computed from wrapped words is right, exactly |
| `Counting`, `Links`, `Blocks` | - | sums over threads, distinct numbers, linked nodes, indices and blocks: shared by the protocols |
| `FreeList` | the reference-counted free list of blocks | a reference word is the flag plus the references held, counted over all threads |
| `TicketQueue` | the optimistic dequeue tickets | the last granted ticket bounds everything granted |
| `BlockIndex` | block ring and doubling block index of a producer | every header finds the blocks still in use; indices are consumed once |
| `ImplicitIndex` | the block index an implicit producer's consumers search | arrays share entries, and an entry comes back to its own slot in every array |
| `SubQueue` | tickets and blocks together | each part does what the other takes for granted |
| `ImplicitTable` | the growing table of implicit producers | an id's way through a table has no gaps, and tickets bound how many ids there are |
| `WorkStealing` | the Chase-Lev deque | every step is a step of an atomic deque |
| `ThreadPool` | workers, waiter list and wake-ups | whoever sleeps is registered and hungry |
| `FifoQueue` | the pool's public queue | the ring is a sequence |
| `Continuations` | continuations racing with completion | each continuation is in one place, counted |
| `PriorityQueue` | the batch handler of the priority queue | a linearization built while the batch is served |
| `SplitHash` | lazy split rehashing | each key is in the first rehashed bucket on its way up |
| `Aggregator` | the operation mailbox | the first in the mailbox is the only one to wait for the handler |
| `Monitor` | prepare, commit and cancel of waits | a context is in the set, owed a signal, or signalled |
| `BlockingQueue` | semaphore accounting, blocking dequeues | five sums over all threads |
| `Channel` | blocking and non-blocking sends and receives | flags and queue against the history of messages |
| `MapReduce` | partitioners and map-reduce | splits are exact covers, so that folds compose |
| `ContextPool` | serial contexts on a pool | who holds the flag, and who will look at the queue |

## Where the code does less than it says

- `ContextPool.TaskStranded`: a scheduled task may never be looked at. A worker that has found the
  context's queue empty still holds the flag for a moment; a token consumed in that moment is gone.
  `StrandedByTheWindow` says that this is the only way, `WorkersExact` that it needs two workers.
- `ThreadPool.AnyWakeUpEndsWait`: waiting for a task inside the pool ends on any wake-up, since
  `task_wait_event::wait` returns a truth value where the events are expected. The continuation that is
  left behind can then wake a later wait of the same worker, for another task. `WaitExact` says when
  a wait is sure to have its task finished.
- `SplitHash.HashMap.Rehash`: the closing check of `rehash`, that no bucket is left to be rehashed, can
  fail in two ways. An empty map is enlarged while it has such buckets (`EnlargedEmpty`), since the new
  last segment has nothing to scan; or the map is not enlarged, and the scan of its last segment does
  not reach all of them, as in any later call on that same map (`RehashedAgain`). The contract gives
  the exact condition for every map. The contents stay right.
- `Channel.AssertionExact`: the assertion that a thread does not receive its own message from a full
  queue can be relied on only in synchronous channels without selects at the sending end.
- `Channel.ReceiverUnseen`: a waiting receiver is meant to give non-blocking sends a chance; after
  another receiver has been served it no longer does.
- `BlockingQueue.WaitForNone`: the assertion that an untimed wait returns something fails when it asks
  for nothing.
- `Words.CircularLessExact`: two indices exactly half a turn apart compare as not less either way.

## Model

| member | source | states |
|---|---|---|
| `FreeList.OneTaker` | libs/concurrentqueue/concurrentqueue.h:1386-1428 | in every interleaving a node just taken off the free list is held by no other thread, neither taking it, adding it nor linking it, and is not on the list |
| `FreeList.NoAba` | libs/concurrentqueue/concurrentqueue.h:1397-1412 | when the CAS of the head is about to succeed, the next pointer read under the reference is the second node of the list as it is now; the assertion that the flag is clear holds for whoever took the node |
| `FreeList.NoNodeLost` | libs/concurrentqueue/concurrentqueue.h:1375-1387 | every node is out, on the list, in the hands of exactly one thread, or flagged with a reference holder |
| `FreeList.HolderStays` | libs/concurrentqueue/concurrentqueue.h:1416-1422 | a reference holder of a flagged node stays one, and the node stays flagged, whatever the other threads do |
| `FreeList.HolderReAdds` | libs/concurrentqueue/concurrentqueue.h:1402-1422 | such a holder cannot win the head CAS; dropping the last reference makes it link the node |
| `FreeList.StepRefinesBag` | libs/concurrentqueue/concurrentqueue.h:1366-1454 | seen as a bag, the list changes only by the CAS that completes an add and the CAS that completes a try_get, by the node at hand |
| `FreeList.Quiescent` | libs/concurrentqueue/concurrentqueue.h:1375-1454 | with all operations returned the list holds exactly the nodes that are not out, each once, with reference words back at 1 and 0 |
| `FreeList.GivesUpOnEmpty` | libs/concurrentqueue/concurrentqueue.h:1389-1431 | in every run a call of try_get returns nothing only if the list was empty at some moment of the call |
| `FreeList.AloneTakes` | libs/concurrentqueue/concurrentqueue.h:1394-1416 | a try_get that runs alone on a list that is not empty takes its first node |
| `FreeList.NotStuck` | libs/concurrentqueue/concurrentqueue.h:1375-1454 | an operation under way has a next step in every reachable state |
| `FreeList.ReachableInv` | libs/concurrentqueue/concurrentqueue.h:1354-1454 | the exact meaning of the reference word of every node, in every reachable state: flag plus the references held by threads and by the list |
| `TicketQueue.HeadWithinTail` | libs/concurrentqueue/concurrentqueue.h:1886-1983 | committed dequeues, those that have yet to advance headIndex included, never exceed the published elements, for any number of single and bulk dequeuers with stale overcommit values |
| `TicketQueue.ClaimIsCovered` | libs/concurrentqueue/concurrentqueue.h:1930-1936 | a dequeuer about to advance headIndex gets published elements only |
| `TicketQueue.EachIndexOnce` | libs/concurrentqueue/concurrentqueue.h:2171-2193 | an index is below headIndex exactly when it was handed to some dequeue, and never to two |
| `TicketQueue.Quiescent` | libs/concurrentqueue/concurrentqueue.h:1889-1929 | with no dequeue in progress optimisticCount - overcommit is headIndex |
| `TicketQueue.AloneSucceeds` | libs/concurrentqueue/concurrentqueue.h:2171-2261 | a dequeue that runs alone on a non-empty sub-queue gets min(max, size) elements, beginning with the one at headIndex |
| `TicketQueue.SingleIsBulkOfOne` | libs/concurrentqueue/concurrentqueue.h:1890-1926 | the word comparison of the single dequeue decides as the bulk dequeue with max 1 does, as long as the size fits half a turn |
| `TicketQueue.GrantedBound` | libs/concurrentqueue/concurrentqueue.h:1916-1929 | the elements granted to any prefix of the tickets are bounded by the tail |
| `TicketQueue.AsksForAll` | libs/concurrentqueue/concurrentqueue.h:2173-2180 | a dequeue asks for all the elements its loaded counts leave over, up to max, and gives up at once only if they leave none |
| `TicketQueue.GetsAllCovered` | libs/concurrentqueue/concurrentqueue.h:2182-2189 | a ticket gets exactly the elements it covers, up to what it was taken for, also when they are fewer; said of the unbounded counts |
| `TicketQueue.ClaimsItsGrant` | libs/concurrentqueue/concurrentqueue.h:2186-2192 | what is not covered is given back, all the rest is claimed, no more and no less |
| `TicketQueue.NotStuck` | libs/concurrentqueue/concurrentqueue.h:1886-1936 | a dequeue under way has a next step in every reachable state |
| `BlockIndex.CopyIndex` | libs/concurrentqueue/concurrentqueue.h:2294-2305 | the do-while of new_block_index copies the used entries, oldest first, even when the index is full and its first and last slots to copy are neighbours |
| `BlockIndex.Fifo` | libs/concurrentqueue/concurrentqueue.h:1937-1977 | what a consumer reads at an index is the element enqueued there, through block reuse, index doubling and wrap-around; flagged indices were claimed and read |
| `BlockIndex.TailPublishesItems` | libs/concurrentqueue/concurrentqueue.h:1986-2168 | publishing the tail appends exactly the items of the call, in order, to the published elements; no other step changes them |
| `BlockIndex.AcceptedIsPublished` | libs/concurrentqueue/concurrentqueue.h:1783-1883 | between calls everything ever passed to enqueue is published, in order, and during a call all but its own items; what is read at an index is the item passed there |
| `BlockIndex.SlotNamesBlock` | libs/concurrentqueue/concurrentqueue.h:1943-1949 | the slot a consumer computes names the block its index was written to, in whichever index array it looks, until it has flagged the index |
| `BlockIndex.FlagSetOnce` | libs/concurrentqueue/concurrentqueue.h:1513-1548 | the assertions of set_empty and set_many_empty: an empty flag is set only when it is clear |
| `BlockIndex.ReuseIsSafe` | libs/concurrentqueue/concurrentqueue.h:1790-1795 | a block is used again only after every element in it has been consumed |
| `BlockIndex.ReadsValue` | libs/concurrentqueue/concurrentqueue.h:1949-1977 | the cell a consumer reads holds the value enqueued at its index |
| `BlockIndex.ReachableInv` | libs/concurrentqueue/concurrentqueue.h:1783-1883 | the invariant of block ring, index headers, cells, flags and every thread's locals holds in every reachable state |
| `BlockIndex.ClaimedIsRead` | libs/concurrentqueue/concurrentqueue.h:1930-1977 | when a dequeue returns, every index it claimed has been read, and what was read is what was enqueued |
| `BlockIndex.ConsumerNotStuck` | libs/concurrentqueue/concurrentqueue.h:1937-1977 | no header, slot, block or flag a dequeue under way goes to is out of bounds: it has a next step in every reachable state |
| `BlockIndex.ProducerNotStuck` | libs/concurrentqueue/concurrentqueue.h:1986-2168 | the same for an enqueue: the block ring, the index and the copied entries are there when it needs them |
| `ImplicitIndex.SlotNamesBlock` | libs/concurrentqueue/concurrentqueue.h:2858-2873 | in every reachable state, however often the index has grown since the consumer loaded its array, the slot it computes holds an entry with the base of its index as key and the block that index was written to: the assertion of the code |
| `ImplicitIndex.ReadsWhatWasWritten` | libs/concurrentqueue/concurrentqueue.h:2474-2540 | what is read at an index is the element enqueued there, and every index a consumer claimed has been read when its dequeue returns |
| `ImplicitIndex.TailPublishesItems` | libs/concurrentqueue/concurrentqueue.h:2545-2690 | publishing the tail adds exactly the items of the call, in order; no other step changes the published elements |
| `ImplicitIndex.AcceptedIsPublished` | libs/concurrentqueue/concurrentqueue.h:2410-2470 | between calls everything ever passed to enqueue is published, in order, and during a call all but its own items; what is read at an index is the item passed there |
| `ImplicitIndex.CounterExact` | libs/concurrentqueue/concurrentqueue.h:1524-1547 | the assertions of set_empty and set_many_empty: a count never exceeds the block size, and reaches it exactly when every index of the block is counted |
| `ImplicitIndex.ReturnedOnce` | libs/concurrentqueue/concurrentqueue.h:2747-2757 | a block about to be returned is not in the pool yet, nobody else is closing it, and no consumer reads from it or has yet to count in it |
| `ImplicitIndex.ReusedAfterRead` | libs/concurrentqueue/concurrentqueue.h:2429-2437 | a block comes out of the pool only when every element it held for this producer has been read |
| `ImplicitIndex.NoBlockLost` | libs/concurrentqueue/concurrentqueue.h:2695-2769 | every block used is in the pool or in use, and with all dequeues returned the block numbers given back are exactly those wholly below headIndex |
| `ImplicitIndex.GrownEntryBlank` | libs/concurrentqueue/concurrentqueue.h:2833-2842 | after the index has doubled the entry behind its tail is unused, as the code asserts, and every live block number is found in the new array |
| `ImplicitIndex.ChainIsOrder` | libs/concurrentqueue/concurrentqueue.h:2624-2688 | the walk along the next pointers, from startBlock or firstAllocatedBlock, is at the block placed in the index for every element written, and comes to endBlock exactly with the last items, as the code asserts |
| `ImplicitIndex.LinksOwnBlock` | libs/concurrentqueue/concurrentqueue.h:2606-2616 | a next pointer is written only in a block that is still the producer's: in use, not in the pool, and not the one being linked; the old tail block is left alone when it may be another's |
| `ImplicitIndex.ConsumerNotStuck` | libs/concurrentqueue/concurrentqueue.h:2474-2540 | no header, slot, entry or block a dequeue under way goes to is missing: it has a next step in every reachable state |
| `ImplicitIndex.ProducerNotStuck` | libs/concurrentqueue/concurrentqueue.h:2545-2690 | the same for an enqueue |
| `ImplicitIndex.ReachableInv` | libs/concurrentqueue/concurrentqueue.h:2410-2925 | the invariant of entries, index arrays, counters, pool, cells and all threads' locals holds in every reachable state |
| `SubQueue.GrantIsClaim` | libs/concurrentqueue/concurrentqueue.h:1930-1943 | in every run of tickets and blocks together, for both kinds of producer, the fetch_add of headIndex claims published elements only, by a thread with no other dequeue under way |
| `SubQueue.PartsAgree` | libs/concurrentqueue/concurrentqueue.h:1886-1983 | in every such run the tickets and the blocks are in states they reach by themselves, and agree on head, tail and who claimed what |
| `SubQueue.GetsWhatWasGranted` | libs/concurrentqueue/concurrentqueue.h:2171-2261 | a dequeue that has returned read, at each index it was granted, the element enqueued there |
| `SubQueue.AtRest` | libs/concurrentqueue/concurrentqueue.h:2474-2540 | with all dequeues returned, the elements taken are the oldest of those passed to enqueue, each granted to exactly one dequeue and read by it; with no enqueue under way all the others are published |
| `Words.CircularLessExact` | libs/concurrentqueue/concurrentqueue.h:406-414 | circular_less_than orders two indices within a full turn as unbounded ones exactly when they are within half a turn, the distance of exactly half a turn reading as not less |
| `Words.ToSignedExact` | libs/asyncplusplus/src/work_steal_queue.h:78-87 | to_signed of a word difference is the difference of the indices exactly when it fits a signed word |
| `Words.SlotOfWord` | libs/concurrentqueue/concurrentqueue.h:1948-1949 | masking a wrapped index with a size that divides the number of words finds the slot of the unbounded index |
| `Words.BlockDistance` | libs/concurrentqueue/concurrentqueue.h:1945-1948 | the unsigned quotient of the wrapped distance of two block bases is the distance in blocks modulo the blocks in a turn |
| `Words.SlotArithmetic` | libs/concurrentqueue/concurrentqueue.h:1943-1949 | although a negative offset is divided as an unsigned number, the slot is the right one if the index size divides the number of blocks in a turn |
| `ImplicitTable.SameProducer` | libs/concurrentqueue/concurrentqueue.h:3294-3443 | all calls of a thread return the same producer, through any number of concurrent resizes and lazy copies |
| `ImplicitTable.ReturnsGiven` | libs/concurrentqueue/concurrentqueue.h:3327-3345 | whatever a call returns is the producer the thread was given by its first call |
| `ImplicitTable.OwnProducer` | libs/concurrentqueue/concurrentqueue.h:3294-3443 | no two threads are ever given the same producer |
| `ImplicitTable.TicketsBelowLimit` | libs/concurrentqueue/concurrentqueue.h:3394-3397 | a table of capacity c only ever holds ids whose ticket is below c/2 + c/4 |
| `ImplicitTable.FreeSlot` | libs/concurrentqueue/concurrentqueue.h:3317-3318 | every table has a free slot |
| `ImplicitTable.ProbesEnd` | libs/concurrentqueue/concurrentqueue.h:3317-3356 | in each of the three probe loops the number of the probe stays below the capacity |
| `ImplicitTable.InsertedOk` | libs/concurrentqueue/concurrentqueue.h:3417-3437 | an id put in the first free slot on its way keeps every id findable: no free slot before it |
| `ImplicitTable.NotHere` | libs/concurrentqueue/concurrentqueue.h:3347-3350 | a free slot on the way of an id proves that the id is not in the table |
| `ImplicitTable.TicketOnce` | libs/concurrentqueue/concurrentqueue.h:3358-3359 | a call gets as far as a new ticket only for a thread that never had one |
| `ImplicitTable.OneResize` | libs/concurrentqueue/concurrentqueue.h:3361-3391 | one resize at a time; the resizer publishes in front of the newest table, and its own id then fits at once |
| `ImplicitTable.GivenStays` | libs/concurrentqueue/concurrentqueue.h:3398-3404 | a producer once given is never replaced, in any step |
| `ImplicitTable.EndsWithProducer` | libs/concurrentqueue/concurrentqueue.h:3320-3345 | a call ends only by returning the thread's producer, with its id found in, copied to or put in the table that was the main one when it looked |
| `ImplicitTable.ResizesWhenFull` | libs/concurrentqueue/concurrentqueue.h:3361-3363 | a thread with a ticket goes on without resizing only if the table has room for it or somebody else is resizing |
| `ImplicitTable.ResizeGoesOn` | libs/concurrentqueue/concurrentqueue.h:3363-3391 | a resize goes on to clear the flag, and publishes a table that is more than twice the count if one is still needed |
| `WorkStealing.CircularArray.Put` | libs/asyncplusplus/src/work_steal_queue.h:55-58 | one slot of the array is written, nothing else |
| `WorkStealing.CircularArray.Grow` | libs/asyncplusplus/src/work_steal_queue.h:63-70 | the new array has twice the slots and the same tasks at all indices from top to bottom |
| `WorkStealing.StepRefinesDeque` | libs/asyncplusplus/src/work_steal_queue.h:104-182 | every step of owner and thieves, growth included, acts as one operation of an atomic deque or changes nothing |
| `WorkStealing.ExactlyOnce` | libs/asyncplusplus/src/work_steal_queue.h:104-182 | each task that push was called with is returned exactly once or is still there, in the deque, in the owner's hand or in the push under way, counted with multiplicity |
| `WorkStealing.StolenTaskIsTop` | libs/asyncplusplus/src/work_steal_queue.h:174-180 | a thief whose CAS on top is about to succeed holds the task now on top, whichever array it was read from |
| `WorkStealing.PopGivesUp` | libs/asyncplusplus/src/work_steal_queue.h:124-153 | no step of pop decides to return without a task but at a moment when the deque is empty |
| `WorkStealing.StealGivesUp` | libs/asyncplusplus/src/work_steal_queue.h:166-172 | a thief gives up, at whatever step, only when the deque is empty or its last task is just being popped |
| `WorkStealing.OwnerNotStuck` | libs/asyncplusplus/src/work_steal_queue.h:104-153 | the owner has a next step in every reachable state; growing, it finds room for all the tasks |
| `WorkStealing.ThiefNotStuck` | libs/asyncplusplus/src/work_steal_queue.h:157-182 | a thief has one too, and one that takes the task if nobody has moved top |
| `WorkStealing.SlotIsMask` | libs/asyncplusplus/src/work_steal_queue.h:50-58 | the masked slot of a wrapped index is that of the unbounded one |
| `ThreadPool.RemoveWaiter` | libs/asyncplusplus/src/threadpool_scheduler.cpp:246-255 | the loop over the waiters array takes off the worker, by swapping in the last, and nothing else |
| `ThreadPool.WaitersFit` | libs/asyncplusplus/src/threadpool_scheduler.cpp:234-238 | the registered waiters are distinct workers, at most num_threads |
| `ThreadPool.RegisterHasRoom` | libs/asyncplusplus/src/threadpool_scheduler.cpp:236-238 | a worker that registers is not on the list yet and finds room in the array |
| `ThreadPool.SleeperRegistered` | libs/asyncplusplus/src/threadpool_scheduler.cpp:240-243 | a sleeping worker with no pending event is registered, and its own deque is empty |
| `ThreadPool.PublicHasWorker` | libs/asyncplusplus/src/threadpool_scheduler.cpp:420-432 | a task in the public queue has a worker that is awake or signalled, or a thread about to signal one |
| `ThreadPool.NothingForgotten` | libs/asyncplusplus/src/threadpool_scheduler.cpp:175-262 | once every worker sleeps with nothing to wake it, no task is left in the public queue or in any deque; all scheduled ones but those just being pushed have been taken, and have ended or wait for another |
| `ThreadPool.NoTaskLost` | libs/asyncplusplus/src/threadpool_scheduler.cpp:395-433 | tasks scheduled = tasks taken + queued + in the hands of a thread about to push; tasks taken = tasks ended + waiting for another + being run |
| `ThreadPool.ScheduleWakes` | libs/asyncplusplus/src/threadpool_scheduler.cpp:402-431 | schedule returns without waking anybody only if it found no waiters |
| `ThreadPool.TriesToSteal` | libs/asyncplusplus/src/threadpool_scheduler.cpp:190-212 | a worker turns to the public queue, and then to sleep, only with its own deque empty and after an attempt to steal |
| `ThreadPool.HolderReleases` | libs/asyncplusplus/src/threadpool_scheduler.cpp:204-243 | with every step the holder of the mutex gets nearer to releasing it |
| `ThreadPool.NoDeadlock` | libs/asyncplusplus/src/threadpool_scheduler.cpp:173-262 | a thread that does not sleep can go on, or the holder of the mutex can |
| `ThreadPool.DropsTheWoken` | libs/asyncplusplus/src/threadpool_scheduler.cpp:417-419 | schedule takes off the list exactly the worker it has woken |
| `ThreadPool.AnyWakeUpEndsWait` | libs/asyncplusplus/src/task_wait_event.h:46-54 | for every other event a wait can wake up with, a run in which it returns with the awaited task unfinished: woken by an available task, or by the bit of an earlier wait that returned too soon |
| `ThreadPool.WaitExact` | libs/asyncplusplus/src/threadpool_scheduler.cpp:240-259 | a wait that slept is sure to return with its task finished if and only if task_finished was set when it woke up, and not for an earlier wait |
| `ThreadPool.EventExact` | libs/asyncplusplus/src/threadpool_scheduler.cpp:222-243 | while a wait sleeps, task_finished is set exactly if its continuation has run, unless a stale bit is set; and the continuation runs only once the task has finished |
| `ThreadPool.TopExact` | libs/asyncplusplus/src/threadpool_scheduler.cpp:185-188 | at the top of its loop a wait returns exactly if its task has finished |
| `ThreadPool.NeverTestsEvent` | libs/asyncplusplus/src/threadpool_scheduler.cpp:184-188 | a wait that has added its continuation never comes back to the top of the loop, so that the test of the event there is never made |
| `ThreadPool.OneHolder` | libs/asyncplusplus/src/threadpool_scheduler.cpp:214-243 | at most one thread is in a critical section of the pool's mutex |
| `ThreadPool.SpawnsEach` | libs/asyncplusplus/src/threadpool_scheduler.cpp:296-316 | the recursive start-up runs every worker of the range exactly once |
| `FifoQueue.Queue.Push` | libs/asyncplusplus/src/fifo_queue.h:45-60 | push appends to the contents, growing or not |
| `FifoQueue.Queue.Pop` | libs/asyncplusplus/src/fifo_queue.h:63-72 | pop takes the oldest item, or says that there is none exactly when there is none |
| `FifoQueue.Queue.Grow` | libs/asyncplusplus/src/fifo_queue.h:48-56 | doubling the array keeps the contents and leaves room |
| `FifoQueue.RingAdds` | libs/asyncplusplus/src/fifo_queue.h:58-60 | writing at tail and advancing it adds one item at the end, also around the end of the array |
| `FifoQueue.RingTakes` | libs/asyncplusplus/src/fifo_queue.h:66-71 | head equals tail exactly when there are no items; advancing head drops the oldest |
| `Continuations.AtMostOnce` | libs/asyncplusplus/include/async++/continuation_vector.h:146-221 | in any run a continuation is scheduled at most once, and only after the task's state is final |
| `Continuations.ExactlyOnce` | libs/asyncplusplus/include/async++/task_base.h:111-142 | with the completer and the adder through, the continuation has been scheduled exactly once, whichever form the list had |
| `Continuations.NothingLost` | libs/asyncplusplus/include/async++/continuation_vector.h:146-192 | a continuation passed on is scheduled or still waiting, exactly one of the two |
| `Continuations.CachedVectorIsFresh` | libs/asyncplusplus/include/async++/continuation_vector.h:148-184 | the vector cached across CAS retries holds the inline continuation and the adder's own when a CAS with it succeeds |
| `Continuations.FlushedStaysEmpty` | libs/asyncplusplus/include/async++/continuation_vector.h:195-221 | once flushed and locked the list stays empty and the word stays as it is |
| `Continuations.RunsDirectly` | libs/asyncplusplus/include/async++/task_base.h:121-135 | a continuation added to a task already final is run by the adder |
| `Continuations.NoDeadlock` | libs/asyncplusplus/include/async++/continuation_vector.h:146-221 | until the completer and all adders are through somebody can go on; every mutex that is locked gets unlocked |
| `PriorityQueue.Queue.HandleOperations` | libs/concurrentqueue/benchmarks/tbb/concurrent_priority_queue.h:329-411 | for every batch and every strict weak order the answers are those of a sequential priority queue on some permutation of the batch, and the vector left holds exactly what that queue holds, all of it a heap with mark at the end |
| `PriorityQueue.Queue.Heapify` | libs/concurrentqueue/benchmarks/tbb/concurrent_priority_queue.h:413-428 | the unsorted end is taken into the heap, nothing lost |
| `PriorityQueue.Queue.Reheap` | libs/concurrentqueue/benchmarks/tbb/concurrent_priority_queue.h:431-448 | after the root is taken the rest is a heap again and the unsorted end is as it was |
| `PriorityQueue.Queue.SiftUp` | libs/concurrentqueue/benchmarks/tbb/concurrent_priority_queue.h:416-427 | one more element in the heap, the elements behind it untouched |
| `PriorityQueue.RootIsMax` | libs/concurrentqueue/benchmarks/tbb/concurrent_priority_queue.h:389-403 | the root of a heap is below no element of it |
| `PriorityQueue.ServeNewest` | libs/concurrentqueue/benchmarks/tbb/concurrent_priority_queue.h:347-357 | a pop that takes the newest unsorted element takes a maximum of the whole queue at that time |
| `PriorityQueue.ServeRoot` | libs/concurrentqueue/benchmarks/tbb/concurrent_priority_queue.h:397-403 | so does a pop that takes the root |
| `PriorityQueue.Drain` | libs/concurrentqueue/benchmarks/tbb/concurrent_priority_queue.h:406-409 | the pushes not yet taken into account can take effect in the order of the unsorted end |
| `PriorityQueue.BatchesCompose` | libs/concurrentqueue/benchmarks/tbb/concurrent_priority_queue.h:329-411 | batches handled one after the other make one legal history |
| `SplitHash.SegmentExact` | libs/concurrentqueue/benchmarks/tbb/concurrent_hash_map.h:154-166 | segment_index_of and segment_base map each bucket number to exactly one offset in one segment, and the first k segments hold the numbers below 2^k |
| `SplitHash.HashMap.Lookup` | libs/concurrentqueue/benchmarks/tbb/concurrent_hash_map.h:1037-1113 | insert and find agree with a finite map; the table grows exactly when the items reach the mask, from 2 to 256 buckets and then by doubling |
| `SplitHash.HashMap.Erase` | libs/concurrentqueue/benchmarks/tbb/concurrent_hash_map.h:1165-1199 | erase removes the key from the map and says whether it was there |
| `SplitHash.HashMap.EqualRange` | libs/concurrentqueue/benchmarks/tbb/concurrent_hash_map.h:1117-1132 | the lookup without rehashing finds the item in the first rehashed bucket on its way |
| `SplitHash.HashMap.Acquire` | libs/concurrentqueue/benchmarks/tbb/concurrent_hash_map.h:629-639 | a bucket is rehashed on demand, its ancestors first, without changing the map; the recursion ends because a parent's number is smaller |
| `SplitHash.HashMap.RehashBucket` | libs/concurrentqueue/benchmarks/tbb/concurrent_hash_map.h:647-677 | the marked bucket takes over exactly the items of its parent with its bits, and no later bucket changes |
| `SplitHash.HashMap.EnableSegment` | libs/concurrentqueue/benchmarks/tbb/concurrent_hash_map.h:199-222 | new segments, to be rehashed or empty, leave the map as it is |
| `SplitHash.HashMap.InsertNewNode` | libs/concurrentqueue/benchmarks/tbb/concurrent_hash_map.h:276-289 | the item is added and the next segment asked for exactly when size reaches mask |
| `SplitHash.HashMap.SearchBucket` | libs/concurrentqueue/benchmarks/tbb/concurrent_hash_map.h:615-621 | the first node with the key, or none in the chain |
| `SplitHash.HashMap.Reserve` | libs/concurrentqueue/benchmarks/tbb/concurrent_hash_map.h:292-297 | segments are enabled until there are enough buckets; on an empty map they count as rehashed |
| `SplitHash.HashMap.MarkRehashedLevels` | libs/concurrentqueue/benchmarks/tbb/concurrent_hash_map.h:234-241 | exactly the buckets whose items are in the given one are marked |
| `SplitHash.HashMap.RehashFrom` | libs/concurrentqueue/benchmarks/tbb/concurrent_hash_map.h:1218-1239 | marking and handing out the items of the root keeps the map, and rehashes exactly the buckets whose items were in that root |
| `SplitHash.HashMap.Rehash` | libs/concurrentqueue/benchmarks/tbb/concurrent_hash_map.h:1211-1241 | the map is kept and its last segment rehashed; all buckets are rehashed afterwards, for any map: if it is not enlarged, exactly when each bucket to be rehashed has its items where such a bucket of the last segment has them; if it is enlarged, exactly when it is not empty or had all rehashed |
| `SplitHash.EnlargedEmpty` | libs/concurrentqueue/benchmarks/tbb/concurrent_hash_map.h:1251-1256 | a map that is empty again does end with buckets not rehashed when it is enlarged, against the assertion at the end of rehash |
| `SplitHash.RehashedAgain` | libs/concurrentqueue/benchmarks/tbb/concurrent_hash_map.h:1216-1222 | rehashing that map once more does not help: there is nothing to scan |
| `SplitHash.ScanExact` | libs/concurrentqueue/benchmarks/tbb/concurrent_hash_map.h:1213-1239 | one scan of the last segment rehashes that segment, and the whole table exactly when it reaches every bucket |
| `SplitHash.ClosedReaches` | libs/concurrentqueue/benchmarks/tbb/concurrent_hash_map.h:1213-1218 | it reaches every bucket when each rehashed one has a rehashed parent, as in any map that was not enlarged while empty |
| `SplitHash.FirstSplit` | libs/concurrentqueue/benchmarks/tbb/concurrent_hash_map.h:651-676 | marking bucket h moves the home of exactly those in its parent whose bits say h |
| `SplitHash.FirstGrown` | libs/concurrentqueue/benchmarks/tbb/concurrent_hash_map.h:199-222 | new buckets, all to be rehashed, change the home of no hash code |
| `SplitHash.Split` | libs/concurrentqueue/benchmarks/tbb/concurrent_hash_map.h:658-676 | dividing the parent's chain keeps each key in the first rehashed bucket on its way |
| `SplitHash.MarkFirst` | libs/concurrentqueue/benchmarks/tbb/concurrent_hash_map.h:234-241 | with all below r marked, those that were at home in r are at home where they started |
| `SplitHash.UpperHalf` | libs/concurrentqueue/benchmarks/tbb/concurrent_hash_map.h:1213-1218 | rehashing the last segment is enough, if every rehashed bucket has a rehashed parent |
| `Aggregator.OneLeader` | libs/concurrentqueue/benchmarks/tbb/aggregator.h:158-159 | at most one thread waits for handler_busy, or is about to take the mailbox over |
| `Aggregator.MutualExclusion` | libs/concurrentqueue/benchmarks/tbb/aggregator.h:158-176 | although handler_busy is tested and set in two accesses, no two threads handle operations at once |
| `Aggregator.AtMostOnce` | libs/concurrentqueue/benchmarks/tbb/aggregator.h:73-88 | each call's operation is applied at most once, and not before the call |
| `Aggregator.ReturnsApplied` | libs/concurrentqueue/benchmarks/tbb/aggregator.h:108-135 | a call returns only after its operation has been applied and finished |
| `Aggregator.IdleApplied` | libs/concurrentqueue/benchmarks/tbb/aggregator.h:108-135 | between calls every operation of a thread has been applied exactly once |
| `Aggregator.NotTouchedAfterFinish` | libs/concurrentqueue/benchmarks/tbb/aggregator.h:81-86 | whatever the handler reads, applies or finishes belongs to a thread that is still in its call |
| `Aggregator.NoDeadlock` | libs/concurrentqueue/benchmarks/tbb/aggregator.h:108-177 | while a call is under way some thread in a call can make a step other than waiting |
| `Monitor.SleeperNotForgotten` | libs/concurrentqueue/benchmarks/tbb/concurrent_monitor.h:139-152 | a thread blocked in commit is in the wait set, or owed a V, or has it |
| `Monitor.OneWakeUp` | libs/concurrentqueue/benchmarks/tbb/concurrent_monitor.cpp:36-110 | in the wait set with its semaphore at 0, or out of it with at most one V owed or delivered |
| `Monitor.OwedOnce` | libs/concurrentqueue/benchmarks/tbb/concurrent_monitor.cpp:89-110 | no two notifiers owe a V to the same context, and none owes two |
| `Monitor.SpuriousExact` | libs/concurrentqueue/benchmarks/tbb/concurrent_monitor.cpp:54-69 | outside a wait, the spurious flag says exactly whether a V is still to be pumped |
| `Monitor.WokenIsOut` | libs/concurrentqueue/benchmarks/tbb/concurrent_monitor.h:142-146 | the assertion after P: the context is out of the queue, and nothing further is owed |
| `Monitor.ListedNodeUntouched` | libs/concurrentqueue/benchmarks/tbb/concurrent_monitor.cpp:102-107 | while a notifier has a context on its list, its thread does not join the wait set again |
| `Monitor.TakenAreOwed` | libs/concurrentqueue/benchmarks/tbb/concurrent_monitor.h:208-236 | a notification takes the first, all, or exactly the chosen contexts out of the wait set, and owes each a V; the others stay |
| `Monitor.CommitExact` | libs/concurrentqueue/benchmarks/tbb/concurrent_monitor.h:139-152 | commit_wait sleeps exactly if no notification has taken its critical section since prepare_wait, or a multiple of 2^32 of them have |
| `Monitor.ReturnsWhenDone` | libs/concurrentqueue/benchmarks/tbb/concurrent_monitor.cpp:71-110 | a wait that sleeps returns only when signalled; a notification only if the wait set was empty at its look or all it has taken are signalled |
| `Monitor.Quiescent` | libs/concurrentqueue/benchmarks/tbb/concurrent_monitor.cpp:36-110 | with nobody waiting or notifying the wait set is empty and semaphores hold only what is to be pumped |
| `BlockingQueue.Accounting` | libs/concurrentqueue/blockingconcurrentqueue.h:260-335 | registered waiters - kernel count - releases in flight = max(0, -m_count); grants + m_count + waiters = initial + signalled; grants never exceed signals |
| `BlockingQueue.TimedOutHasPermit` | libs/concurrentqueue/blockingconcurrentqueue.h:283-290 | a timed-out waiter that sees m_count >= 0 has a kernel permit present or in flight for it |
| `BlockingQueue.WithdrawalLeavesPermits` | libs/concurrentqueue/blockingconcurrentqueue.h:288-289 | a waiter that withdraws takes no permit from the others |
| `BlockingQueue.Conservation` | libs/concurrentqueue/blockingconcurrentqueue.h:519-582 | inner elements = free permits + permits in the kernel or in flight + permits held + enqueued but not signalled; and all that enqueue was called with is enqueued, but for calls under way |
| `BlockingQueue.ElementReserved` | libs/concurrentqueue/blockingconcurrentqueue.h:690-731 | two threads in the loops over the inner dequeue have disjoint elements reserved |
| `BlockingQueue.LoopHasElements` | libs/concurrentqueue/blockingconcurrentqueue.h:755-761 | no thread is in the loop over the inner dequeue without as many elements as it has still to take |
| `BlockingQueue.NoLostWakeUp` | libs/concurrentqueue/blockingconcurrentqueue.h:396-405 | with everybody idle or asleep, each sleeper has a permit to wake it or the queue holds nothing beyond the permits |
| `BlockingQueue.Returned` | libs/concurrentqueue/blockingconcurrentqueue.h:839-847 | a dequeue returns no more than asked, and an untimed one something exactly when it asked for something |
| `BlockingQueue.Greedy` | libs/concurrentqueue/blockingconcurrentqueue.h:366-387 | a try, a wait or a timed wait comes away with fewer permits than asked for only when none is free any more |
| `BlockingQueue.TakesWhatThereIs` | libs/concurrentqueue/blockingconcurrentqueue.h:366-377 | a successful CAS takes the permits there are, up to what is still asked for |
| `BlockingQueue.EmptyHanded` | libs/concurrentqueue/blockingconcurrentqueue.h:380-387 | a dequeue asked for something comes away with nothing only if it was a try, or had a time limit, slept and timed out |
| `BlockingQueue.StaysTheSame` | libs/concurrentqueue/blockingconcurrentqueue.h:690-731 | to its end a dequeue stays one for as many elements as it was called for |
| `BlockingQueue.WaitForNone` | libs/concurrentqueue/blockingconcurrentqueue.h:389-394 | the assertion at the end of waitMany fails for a wait that asks for none |
| `BlockingQueue.Quiescent` | libs/concurrentqueue/blockingconcurrentqueue.h:343-405 | with no operation under way elements, permits and signals balance exactly |
| `Channel.Capacity` | libs/cpp-channel/include/channel.h:100-116 | the queue never exceeds N + 1, a full queue has a pending send, and blocking and non-blocking sends are never both pending |
| `Channel.Fifo` | libs/cpp-channel/include/channel.h:713-759 | received values are a prefix of the sent ones, the rest is in the queue, in order |
| `Channel.CallsInOrder` | libs/cpp-channel/include/channel.h:763-803 | what a thread calls send with, or try_send with success, gets sent, in the order of its calls, but for the value of a call that still waits to begin |
| `Channel.TrySendExact` | libs/cpp-channel/include/channel.h:672-710 | try_send succeeds, and its value is sent, exactly if no send is pending and there is room, or a receiver seen to wait for the one value too many |
| `Channel.TryRecvExact` | libs/cpp-channel/include/channel.h:713-759 | try_recv succeeds exactly if the queue is not empty, with the oldest value |
| `Channel.RecvTakes` | libs/cpp-channel/include/channel.h:806-830 | recv returns only with the oldest value, taken off the queue |
| `Channel.SendReturns` | libs/cpp-channel/include/channel.h:763-803 | when a blocking send returns at most N values are outstanding; with N = 0 its own has been received |
| `Channel.OnePendingSend` | libs/cpp-channel/include/channel.h:763-803 | one blocking send at a time is between its two waits |
| `Channel.PendingTrySendHasReceiver` | libs/cpp-channel/include/channel.h:672-710 | a try_send that is left pending has a receiver waiting to complete it, and a thread that will look or have one look |
| `Channel.NoLostWakeUp` | libs/cpp-channel/include/channel.h:122-160 | a thread that sleeps although what it waits for has come about has another one on its way to look for the same, or about to notify: with one notify_one for each change, spurious wake-ups and late comers notwithstanding |
| `Channel.SenderNotStuck` | libs/cpp-channel/include/channel.h:763-785 | unless the queue is full, just the thread that keeps a waiting sender waiting is under way, or one about to wake it: the pending send, a receiver for the value of a try_send, or a sender that will begin |
| `Channel.Quiescent` | libs/cpp-channel/include/channel.h:122-160 | no deadlock: with all threads idle or asleep, receivers sleep only on an empty queue, senders only on a full one with its send pending, and never both |
| `Channel.AssertionExact` | libs/cpp-channel/include/channel.h:806-818 | the assertion on the sender of a full queue's first message holds in every run exactly for N = 0 without selects at the sending end |
| `Channel.SeenUntilReceive` | libs/cpp-channel/include/channel.h:81-95 | a waiting receiver is seen by try_send until another receive is completed beside it |
| `Channel.ReceiverUnseen` | libs/cpp-channel/include/channel.h:119-125 | two receivers, one served: the other waits on an empty queue and every try_send gives up |
| `MapReduce.ParallelMapReduce` | libs/asyncplusplus/include/async++/parallel_reduce.h:40-57 | for associative reduce with init a left identity, the result is the sequential left fold, however the range is split and whichever threads run the pieces; at most hardware_concurrency pieces if none changes thread |
| `MapReduce.Partitioner.Split` | libs/asyncplusplus/include/async++/partitioner.h:70-131 | split cuts the range into an ordered exact cover, the first half rounded up, or not at all; thread shares add up |
| `MapReduce.FoldSplit` | libs/asyncplusplus/include/async++/parallel_reduce.h:40-57 | folding two parts separately and reducing the results is folding the whole |
| `MapReduce.AutoGrainSize` | libs/asyncplusplus/include/async++/partitioner.h:43-52 | the grain is between 1 and 2048 |
| `MapReduce.EightPiecesEach` | libs/asyncplusplus/include/async++/partitioner.h:43-52 | the grain is the largest up to 2048 that leaves eight pieces of its size per thread, or one |
| `ContextPool.OneWorkerPerContext` | src/CustomSchedulerContextInPool.cpp:176-203 | at most one worker is between the CAS and the store of a context's flag |
| `ContextPool.InScheduleOrder` | src/CustomSchedulerContextInPool.cpp:156-164 | the tasks of a context start in the order of scheduling, each at most once |
| `ContextPool.StartsAfterTheLast` | src/CustomSchedulerContextInPool.cpp:185-203 | a task starts when all tasks of its context started before have finished, and it is the next one scheduled |
| `ContextPool.PutsBackExact` | src/CustomSchedulerContextInPool.cpp:42-62 | a worker puts a context's token back exactly if it has run a task with it |
| `ContextPool.ReleasesMutex` | src/CustomSchedulerContextInPool.cpp:22-66 | the holder of the mutex releases it with its next step, or the one after putting a token back |
| `ContextPool.NoDeadlock` | src/CustomSchedulerContextInPool.cpp:16-68 | the mutex is held exactly by a worker that is where it releases it; a worker can go on or the holder can |
| `ContextPool.StrandedByTheWindow` | src/CustomSchedulerContextInPool.cpp:176-203 | a step strands a queued task exactly if it is the CAS of a worker with the context's last token that finds the flag held by a worker which has already found the queue empty |
| `ContextPool.StrandedStays` | src/CustomSchedulerContextInPool.cpp:33-66 | such a task stays until its context is scheduled on again |
| `ContextPool.TaskStranded` | src/CustomSchedulerContextInPool.cpp:176-203 | for any number of workers from two on, a run with two calls in which this happens |
| `ContextPool.WorkersExact` | src/CustomSchedulerContextInPool.cpp:16-68 | no queued task is ever stranded, in any run, if and only if there is at most one worker |

## Left out

Of the memory model and the platform:

- Weak memory orders and fences: all interleavings here are sequentially consistent. A compare-exchange
  fails for no reason only in `Continuations`, where the loop caches something across retries; elsewhere
  such a failure is a retry that the model has anyway.
- Allocation failure, exceptions thrown by elements, and the roll-back paths for them. In a bulk enqueue
  a failed allocation leaves obtained blocks in the ring; that state does not occur in `BlockIndex`.
- Destructors, moves and swaps of queues, tokens and rotation of producers, cache alignment, statistics.
- Kernel semaphores, mutexes and condition variables have their usual contract; in `ContextPool` a wait
  on a condition variable is a wait for its predicate. Timeouts may strike at any time.
- Values moved from are modelled as copies; no moved-from value is read.

Of the queue:

- BlockIndex.Fifo: the number of elements is unbounded, so the limit MAX_SUBQUEUE_SIZE and the check for
  a full index space are not modelled; runs are those in which block size times index size divides 2^64.
- TicketQueue.HeadWithinTail: runs are those in which the counters compared stay within half a turn of
  each other.
- FreeList.ReachableInv: fewer than 2^31 - 1 threads, so that the reference count does not reach the flag.
- BlockIndex.TailPublishesItems: a single enqueue is a bulk enqueue of one; they differ in when the flags
  of a block are cleared and its index entry is written, both before anything is published.
- BlockIndex.ReuseIsSafe: the loads of all empty flags of a block are one step; flags are only ever set
  by consumers, so that a later load could only see more of them set.
- The pool of blocks is a set; the free list behind it is proved by itself, in `FreeList`.
- ImplicitTable.SameProducer: thread-local support is off, so that entries are never freed for reuse and
  thread ids are not recycled.
- ImplicitIndex.ReachableInv: as for `BlockIndex`, no allocation fails, so that the tail of the index is
  never moved back, and nothing stands for the check for a full index space.
- The non-blocking queue as a whole, with its list of producers and consumer heuristics.

Of the pool and the tasks:

- In `ThreadPool` a continuation added to a task that has already finished may run at once or later; two
  waits for one task are waits for two tasks.
- ThreadPool.NothingForgotten: up to the start of a shutdown; only the number of tasks in each queue is
  modelled, the deque itself being `WorkStealing`.
- Continuations.ExactlyOnce: one completion; reference counts of tasks and the values they carry.
- ContextPool.InScheduleOrder: contexts that expire, and stopping the pool.
- The schedulers that wait on a queue of their own or balance load (src/CustomSchedulerWaitQueue.cpp,
  src/CustomSchedulerBalancer.cpp, src/SpinMutex.cpp): simpler, or without a property worth stating.

Of the containers:

- SplitHash.HashMap.Lookup: one operation at a time, without the reader and writer locks of buckets and
  items, the upgrade races and the mask races they bring; at most 2^32 buckets, because masks are
  built by shifting a 32-bit one; buckets are kept in one sequence, `SegmentExact` giving their segments;
  values are not changed through accessors, and erasing through an accessor is not modelled.
- PriorityQueue.Queue.HandleOperations: a push that throws when the vector grows; the batch itself comes
  from `Aggregator`.
- Aggregator.NoDeadlock: a body that calls the aggregator again from inside.
- Monitor.TakenAreOwed: the wait set is a sequence, not a doubly linked list with a sentinel; aborting
  waits is a notification of all here.
- The choice among the cases of a select, and channels with selects at both ends, which the code does
  not support either.
- MapReduce.ParallelMapReduce: the two halves are evaluated one after the other; their results do not
  depend on the order.
- hash_map ranges and iterators, clear, copy and swap; the priority queue's size and empty.
- benchmarks/simplelockfree.h: with several consumers a node can be recycled while it is still read.
