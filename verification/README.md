# Verification of the concurrent containers

This project models, in Dafny, the concurrent data structures and the profiler core that the
repository carries under `lib/include`, and proves their central promises.  The concurrent parts are
step systems: one step is one access to one shared variable, under sequential consistency, with any
number of threads (one owner for the work-stealing deque, one popping thread for the allocator, one
consumer for the message queue, one producer for the ring).  A class beside each step system changes
the source's own fields in place, and each of its methods is tied to the model's step.  The
theorems about an operation are of two kinds: what no run violates, and what the operation comes to.
From every state of a run, one that nobody disturbs has the one outcome that the contents call for;
and where the code is wait-free (the ring's enqueue and the reads of its dequeue, the deque's push and
pop, filling and receiving a message) it ends after a bounded number of its own steps under any
interference.  The sequential parts are loops and classes with the maps, chains and tables they stand
for.

| file | what it models |
|---|---|
| `FreeList.dfy` | the queue's reference-counted lock-free free list |
| `DequeueCounters.dfy` | the optimistic-count and overcommit protocol of `dequeue` and `dequeue_bulk` |
| `ExplicitRing.dfy`, `RingOutcomes.dfy` | one explicit producer's ring of reusable blocks and its circular block index, and what its operations come to |
| `Semaphore.dfy` | the lightweight semaphore over a kernel semaphore, with time-outs |
| `StealDeque.dfy`, `DequeOutcomes.dfy` | the Chase-Lev deque with growing and shrinking buffers and buffer reclamation, and what its operations come to |
| `MessageQueue.dfy` | the profiler's multi-producer ring of messages |
| `HashTable.dfy` | the profiler's linear-probing hash table |
| `SampleTree.dfy` | the profiler's sample tree and its flattening into a free chain |
| `ObjectAllocator.dfy` | the profiler's lock-free object allocator |
| `StripedLocks.dfy`, `LockOutcomes.dfy` | the cuckoo map's striped locks, lock containers and hashpower check, and what locking comes to |
| `CuckooHash.dfy`, `Buckets.dfy`, `CuckooTable.dfy` | hashing to two buckets, bucket storage, and what a table stores |
| `CuckooSearch.dfy`, `CuckooPath.dfy` | the breadth-first search for an eviction path, its coding, and the moves |
| `CuckooDouble.dfy`, `CuckooMap.dfy` | doubling, and the map's operations against a plain finite map |
| `CuckooResize.dfy` | when `rehash` and `reserve` keep their promises, and runs in which they do not |
| `Prelude.dfy`, `Modular.dfy`, `Bits.dfy` | options, division with remainder, bit operations on numbers |

## Where the code does not do what its comments say

Each entry names an input, the condition, and the members.

- Release of the whole-table lock (`lib/include/cuckoohash_map.hh:832-843`).  The loop walks from the
  first container it locked to the end of the container list, and tests for the end after it has
  released everything it held, so a resize by another thread can append a container in between; the
  loop then releases that thread's locks.  Input: two threads, both locking the whole table (`clear`,
  `rehash`, an expansion), the second of them growing it (`StripedLocks.ReleaseCanOverrun`).
  Condition: locking is sound in all runs if and only if one thread alone uses the table or it begins
  with at least 65536 buckets (`StripedLocks.LockingSoundExactlyWhen`).  `StripedLocks.StepExact` says that no
  other step breaks the locking invariant, and `StripedLocks.OneAtATimeIsClean` gives a usage under
  which no run goes wrong in a smaller table.
- Static assertion on the path code (`lib/include/cuckoohash_map.hh:1442`).  It bounds S^5, but a full
  code goes up to 2 S^5 - 1.  Input: S = 9 slots in a bucket, the second insert bucket, and the last
  slot at every step.  Condition: every code fits its 16 bits if and only if S is at most 8
  (`CuckooSearch.CodesFitExactlyUpToEight`).
- Exception guarantee of `cuckoo_expand_simple` (`lib/include/cuckoohash_map.hh:1553-1556`).  It moves
  elements out of the table one by one, so when the new map refuses an insert the elements visited have
  been moved from.  Input: for any S of at most 8, a map of 2^13 buckets with the 2 S + 1 keys
  k = 0, 1, ... of hash k * 0x10100, whose values a move empties, and `rehash(0)`: it fails, and the map
  is lost (`CuckooResize.FailedExpansionCanLoseKeys`).  Condition: a rehash to n below the maximum
  hashpower fails if at every hashpower that growing from n can come to some keys outnumber the slots
  of their buckets, and only if growing can come to a hashpower where the other keys fill both buckets
  of some key and one bucket's worth of elements is below the minimum load; by then something has been
  moved, so the map is lost if a move changes each stored element and kept if it changes none
  (`CuckooMap.CuckooMap.Rehash`).  In between it is kept if and only if a move changes none of the
  elements before the slot where the expansion gave up (`CuckooMap.FailedExpansionKeepsMapExactlyWhen`).
- Result of `rehash` and `reserve` (`lib/include/cuckoohash_map.hh:638-651`).  They are documented to
  return whether the table changed size, but return whether another hashpower was asked for.  Input: two
  full buckets and `rehash(0)`, which ends with two buckets again and returns true
  (`CuckooResize.RehashReportsNoChange`).  Condition (`CuckooResize.ReportIsTrueWhen`): asked for no
  smaller hashpower they report truly.  Asked for a smaller one n they say true, which is right if the
  contents give no reason to grow at one of n, ..., hp - 1 (no key has both buckets filled by other keys,
  or the load is too low), and wrong if they are too many at each of these, as when they are more than
  half the table's slots, and give no reason to grow at hp.

## Model

| member | source | states |
|---|---|---|
| FreeList.StepKeepsInv | lib/include/concurrentqueue.h:1375-1454 | every access by any thread, in `add`, `try_get` or the internal add, keeps the invariant: counts match the references held, the chain of links is the list, and each node has one status that its count and the threads agree with |
| FreeList.Run | lib/include/concurrentqueue.h:1375-1454 | so it holds after any interleaving of any number of threads, each adding only nodes it owns |
| FreeList.WalkIsList | lib/include/concurrentqueue.h:1357-1359 | following the real links from the head gives exactly the list, then null |
| FreeList.EveryNodeAccountedFor | lib/include/concurrentqueue.h:1375-1454 | in every reachable state a node is on the list exactly once, or owned by one thread, or being added by exactly one thread, or left (flag set, references held) to whoever drops the last reference; never two of these |
| FreeList.WinningPopInstallsSuccessor | lib/include/concurrentqueue.h:1403-1414 | no ABA: when the head CAS of `try_get` wins, the link read earlier is the front node's true successor, exactly the front node leaves the list for that thread, and the flag is clear as the code asserts |
| FreeList.WinningAddPushesFront | lib/include/concurrentqueue.h:1442-1452 | when the head CAS of the internal add wins, the node was not on the list and is now in front of all of it |
| FreeList.OnlyTheOwnerGivesUp | lib/include/concurrentqueue.h:1375-1387 | a node handed out stays with its owner through every step until the owner adds it back |
| FreeList.QuiescentLosesNothing | lib/include/concurrentqueue.h:1375-1454 | when all calls have returned each node is on the list with one reference or with its owner with none: nothing lost, nothing pending |
| FreeList.List.constructor | lib/include/concurrentqueue.h:1368-1368 | an empty list; every node starts with an owner |
| FreeList.List.Add | lib/include/concurrentqueue.h:1375-1387 | each access of `add` and `add_knowing_refcount_is_zero`, in place, is exactly the model's step and keeps the invariant |
| FreeList.List.TryGet | lib/include/concurrentqueue.h:1389-1426 | the same for each access of `try_get` |
| FreeList.TryGetAlone | lib/include/concurrentqueue.h:1389-1415 | from every state of a run with a list that is not empty, a `try_get` that nobody disturbs hands its front node to the caller, with one reference fewer, and leaves the rest of the list as it is |
| FreeList.TryGetFromEmpty | lib/include/concurrentqueue.h:1394-1425 | ... and from an empty list it returns null, with nothing changed |
| FreeList.NullMeansEmpty | lib/include/concurrentqueue.h:1394-1425 | in any run, with any interference, a `try_get` about to return null has, during this call, read the head when the list was empty |
| FreeList.AddAlone | lib/include/concurrentqueue.h:1375-1387 | an `add` that nobody disturbs puts the node in front of the list; or, if others still hold references to it, leaves it to the last of them |
| FreeList.LastDropAdds | lib/include/concurrentqueue.h:1421-1423 | whoever drops the last reference to such a node puts it in front of the list, and goes on with its own call |
| DequeueCounters.StepKeepsInv | lib/include/concurrentqueue.h:1888-1982 | every counter access of `dequeue` or `dequeue_bulk` by any consumer keeps the invariant, whose heart is: optimistic count = head + overcommit + requests in flight, and every approved unit had room below the tail |
| DequeueCounters.PublishKeepsInv | lib/include/concurrentqueue.h:1881-1881 | so does the producer publishing more elements |
| DequeueCounters.Run | lib/include/concurrentqueue.h:1888-1982 | and therefore any interleaving does |
| DequeueCounters.ApprovedBound | lib/include/concurrentqueue.h:1923-1933 | of the first k units requested, those approved never outnumber the elements published: the argument of the comment, by induction on the units |
| DequeueCounters.HeadBehindTail | lib/include/concurrentqueue.h:1926-1934 | head plus all claims already cleared but not yet made is at most the tail |
| DequeueCounters.IndicesHandedOutAreEnqueued | lib/include/concurrentqueue.h:2173-2257 | in any run, for any mix of single and bulk dequeues: the head never passes the tail, no two consumers hold the same index, every index held is of a published element, and the optimistic count is exactly accounted for |
| DequeueCounters.ClaimsTile | lib/include/concurrentqueue.h:1934-1934 | the claims made in a run, in order, tile the indices from the first head to the last without gap or overlap |
| DequeueCounters.EveryIndexHandedOutOnce | lib/include/concurrentqueue.h:2190-2192 | over a whole run, claims long finished included, no index is handed out twice, and the indices handed out are exactly those below the head, all published |
| DequeueCounters.ClaimStaysBehindTail | lib/include/concurrentqueue.h:2190-2192 | at the instant a consumer advances the head, all it takes is published |
| DequeueCounters.QuiescentCountIsHead | lib/include/concurrentqueue.h:1976-1979 | with no request in flight, optimistic count less overcommit is the head: failed requests leave no trace |
| DequeueCounters.Counters.constructor | lib/include/concurrentqueue.h:1675-1679 | the four counters start at zero |
| DequeueCounters.Counters.Request | lib/include/concurrentqueue.h:2173-2180 | the accesses up to the request, in place, are exactly the model's steps |
| DequeueCounters.Counters.Check | lib/include/concurrentqueue.h:2182-2185 | the second look at the tail decides exactly how much is approved |
| DequeueCounters.Counters.Claim | lib/include/concurrentqueue.h:2186-2192 | the overcommit and the claim on the head, in place |
| DequeueCounters.DequeueAlone | lib/include/concurrentqueue.h:2173-2192 | from every state of a run, a dequeue that nobody disturbs claims, from the head on, the smaller of max and the number of published elements that nobody has claimed or asked for; and nothing exactly if there are none |
| DequeueCounters.DequeueAloneWhenQuiet | lib/include/concurrentqueue.h:2173-2192 | with no request in flight: it claims the smaller of max and tail less head, from the head on, and nothing exactly if the head is the tail |
| ExplicitRing.StepKeepsInv | lib/include/concurrentqueue.h:1783-1983 | every access by the producer or a consumer keeps the invariant relating ring, block index (current and superseded), empty flags, cells, counters and every consumer's place in the code |
| ExplicitRing.Run | lib/include/concurrentqueue.h:1783-1983 | so it holds after any interleaving |
| ExplicitRing.EveryReadIsTheEnqueuedValue | lib/include/concurrentqueue.h:1934-1974 | in any run the consumer that drew index i reads the i-th value enqueued, and a consumer about to return has read all its indices |
| ExplicitRing.ReturnedMeansDelivered | lib/include/concurrentqueue.h:1934-1974 | once every consumer has returned, what was read is exactly the first head values, each at its own index |
| ExplicitRing.TakeFindsElement | lib/include/concurrentqueue.h:1948-1951 | a consumer's next element is constructed, unread, in the cell of the block its index entry names |
| ExplicitRing.OldestBlockDone | lib/include/concurrentqueue.h:1791-1794 | the block ahead of the tail block is the oldest one in use, and when all its flags are set every index it held is fully dequeued |
| ExplicitRing.ResetTouchesNoReader | lib/include/concurrentqueue.h:1568-1580 | while a block's flags are being cleared no consumer is reading it or setting flags in it |
| ExplicitRing.GrownHeaderOk | lib/include/concurrentqueue.h:2279-2316 | the doubled index, filled from slot 0 in order of age, maps every block number of the window to the same base and block as the full old one |
| ExplicitRing.FrontExposed | lib/include/concurrentqueue.h:1866-1870 | publishing the front slot extends what the index maps by exactly the newest block |
| ExplicitRing.EntryWritten | lib/include/concurrentqueue.h:1866-1868 | overwriting the producer's slot changes nothing that any consumer can look up |
| ExplicitRing.OffsetLeadsHome | lib/include/concurrentqueue.h:1945-1948 | from any base in the window, the signed block distance leads to the slot of the consumer's own block |
| ExplicitRing.HeldIndexMapsElement | lib/include/concurrentqueue.h:1939-1948 | whatever index a consumer loaded, even one superseded by doubling since, the slot it computed names the base and the block of its own element |
| ExplicitRing.UnsignedOffsetAgrees | lib/include/concurrentqueue.h:1947-1948 | dividing the distance as an unsigned number, as the code does, reaches the same slot whenever the word size is a multiple of index size times block size |
| ExplicitRing.FlagWasClear | lib/include/concurrentqueue.h:1537-1541 | the flag that a consumer sets next is there and clear, as the code asserts |
| ExplicitRing.ExplicitProducer.constructor | lib/include/concurrentqueue.h:1700-1716 | an empty sub-queue with an empty index |
| ExplicitRing.ExplicitProducer.ScanAhead | lib/include/concurrentqueue.h:1791-1793 | `enqueue` looking at the flags of the block ahead, in place |
| ExplicitRing.ExplicitProducer.NewBlock | lib/include/concurrentqueue.h:1802-1844 | ... linking a new block into the ring behind the tail block |
| ExplicitRing.ExplicitProducer.NewBlockIndex | lib/include/concurrentqueue.h:2279-2316 | ... copying the block index to one twice the size |
| ExplicitRing.ExplicitProducer.ExposeBlock | lib/include/concurrentqueue.h:1865-1870 | ... clearing flags and writing the index entry before its front |
| ExplicitRing.ExplicitProducer.PutElement | lib/include/concurrentqueue.h:1878-1882 | ... constructing the element and then publishing the tail |
| ExplicitRing.ExplicitProducer.LoadIndex | lib/include/concurrentqueue.h:1939-1940 | a consumer loading the index and its front |
| ExplicitRing.ExplicitProducer.FindSlot | lib/include/concurrentqueue.h:1945-1948 | a consumer computing its slot from the base at the front |
| ExplicitRing.ExplicitProducer.ReadSlot | lib/include/concurrentqueue.h:2206-2209 | a consumer reading its block and where its run there ends |
| ExplicitRing.ExplicitProducer.MoveOut | lib/include/concurrentqueue.h:2211-2216 | moving an element out yields the value enqueued at that index |
| ExplicitRing.ExplicitProducer.SetEmpty | lib/include/concurrentqueue.h:1532-1541 | setting one of the run's empty flags; the contract says that it was clear |
| RingOutcomes.EnqueueEnds | lib/include/concurrentqueue.h:1783-1883 | under any interleaving, an `enqueue` that may allocate ends, after a bounded number of its own steps, with its value appended |
| RingOutcomes.EnqueueBegins | lib/include/concurrentqueue.h:1783-1791 | ... the bound being two steps for each cell of a block and eight more |
| RingOutcomes.OnlyGivingUpAppendsNothing | lib/include/concurrentqueue.h:1806-1830 | it ends with nothing appended only where it may not allocate or is over the size limit |
| RingOutcomes.ScanAlone | lib/include/concurrentqueue.h:1791-1802 | the block ahead is reused exactly when all its flags are set, and else another is asked for |
| RingOutcomes.ReadEnds | lib/include/concurrentqueue.h:1934-1974 | under any interleaving, a consumer that has claimed indices has read, after a bounded number of its own steps, the value enqueued at each of them, with the index superseded or the ring reused meanwhile |
| RingOutcomes.DequeueAlone | lib/include/concurrentqueue.h:2171-2216 | from every state of a run, a dequeue that nobody disturbs reads, from the head on, the values enqueued there, as many as it may of those that nobody has claimed or asked for; if there are none it changes nothing |
| RingOutcomes.DequeueAloneWhenQuiet | lib/include/concurrentqueue.h:1886-1983 | with no request in flight: it reads from the front of the queue, and returns nothing exactly if the queue is empty |
| Semaphore.StepKeepsInv | lib/include/blockingconcurrentqueue.h:260-405 | every access keeps: blocked waiters less kernel permits less releases still due = max(0, -count) |
| Semaphore.Run | lib/include/blockingconcurrentqueue.h:260-405 | ... and any interleaving does, time-outs included |
| Semaphore.AcquiredNeverExceedsSignaled | lib/include/blockingconcurrentqueue.h:260-405 | in any run, units acquired, available, and due to waiters add up exactly to the initial count plus units signalled, so acquisitions never exceed them |
| Semaphore.NoLostWakeup | lib/include/blockingconcurrentqueue.h:396-405 | once every signal call has returned, a waiter without a permit means that every unit signalled has been acquired; and with a count of zero or more every waiter has its permit |
| Semaphore.TimedOutWaiterIsOwedAPermit | lib/include/blockingconcurrentqueue.h:284-293 | a timed-out waiter that finds the count no longer negative is owed a permit that is there or on its way |
| Semaphore.UndoIsNeutral | lib/include/blockingconcurrentqueue.h:294-295 | the winning undo CAS takes one waiter and one unit of debt away, and touches neither permits nor acquisitions |
| Semaphore.LightweightSemaphore.constructor | lib/include/blockingconcurrentqueue.h:338-341 | the initial count, no permits, nobody waiting |
| Semaphore.LightweightSemaphore.TakeFromCount | lib/include/blockingconcurrentqueue.h:343-352 | the loads and CASes that take from a positive count, spinning and spurious failure included |
| Semaphore.LightweightSemaphore.TakeUnits | lib/include/blockingconcurrentqueue.h:366-377 | the greedy CAS takes min(seen, max) units |
| Semaphore.LightweightSemaphore.Block | lib/include/blockingconcurrentqueue.h:274-296 | the decrement, the kernel wait, its time-out and the undo loop |
| Semaphore.LightweightSemaphore.Signal | lib/include/blockingconcurrentqueue.h:396-405 | the increment, and exactly as many kernel releases as there were waiters to cover, one at a time |
| Semaphore.WinningTryTakes | lib/include/blockingconcurrentqueue.h:343-377 | a compare-and-swap that wins lowers the count by the smaller of the call's max and what it saw, and ends the call with exactly these units |
| Semaphore.TryAlone | lib/include/blockingconcurrentqueue.h:343-377 | from every state of a run with a positive count, a try that nobody disturbs takes the smaller of its max and the count |
| Semaphore.TryFindsNothing | lib/include/blockingconcurrentqueue.h:262-274 | with a count of zero or less it takes nothing: a try returns, and a wait spins and then blocks |
| Semaphore.EmptyHandedMeansNone | lib/include/blockingconcurrentqueue.h:284-377 | whatever others do, a try comes away with nothing only at an access that finds nothing there, spurious failures included, and a wait only by giving back the unit it owed after a time-out |
| Semaphore.PermitAlone | lib/include/blockingconcurrentqueue.h:276-283 | a blocked waiter whose permit is there takes it, and has one unit; a wait for many then tries for the rest |
| Semaphore.TimeOutAlone | lib/include/blockingconcurrentqueue.h:288-296 | after a time-out, undisturbed, the unit of debt is given back, or the permit that has come is taken |
| Semaphore.SignalAlone | lib/include/blockingconcurrentqueue.h:396-405 | a signal of n, undisturbed, adds n units and exactly one permit for each waiter that they cover |
| Semaphore.EachCallGetsItsUnits | lib/include/blockingconcurrentqueue.h:298-393 | in any run, with the units kept per call: they add up to all acquired, no call gets more than its max, and a wait with no time-out ends with at least one, hence `wait` with exactly one |
| ObjectAllocator.StepKeepsInv | lib/include/Remotery.c:1594-1694 | with one allocating thread and any number of freeing ones, every access keeps the list, the three counters' debts and the objects' statuses in order |
| ObjectAllocator.Run | lib/include/Remotery.c:1594-1694 | ... in any interleaving |
| ObjectAllocator.NoObjectLostOrShared | lib/include/Remotery.c:1594-1694 | in every reachable state an object is free and on the list exactly once, or off the list and with the clients, or inside the unfinished operation of exactly one thread |
| ObjectAllocator.WinningPopIsExact | lib/include/Remotery.c:1621-1627 | when the pop CAS wins, the link read before it is still the front object's, whatever was freed in between |
| ObjectAllocator.PopNeverFindsNull | lib/include/Remotery.c:1615-1622 | the list is never empty when the allocating thread pops, as the code asserts |
| ObjectAllocator.CountersExactWhenComplete | lib/include/Remotery.c:1665-1694 | when all operations are complete, free is the length of the list, in-use the objects out, and their sum is allocated |
| ObjectAllocator.Allocator.constructor | lib/include/Remotery.c:1594-1596 | an empty allocator |
| ObjectAllocator.Allocator.Push | lib/include/Remotery.c:1594-1608 | the push loop, access by access, in place |
| ObjectAllocator.Allocator.CountFrees | lib/include/Remotery.c:1678-1694 | the counters after a free or a range free |
| ObjectAllocator.Allocator.Alloc | lib/include/Remotery.c:1636-1675 | the allocation around its pop |
| ObjectAllocator.Allocator.Pop | lib/include/Remotery.c:1611-1633 | the pop loop, access by access, in place |
| ObjectAllocator.MadeOnlyWhenNoneFree | lib/include/Remotery.c:1642-1668 | an object is made only when none is free |
| ObjectAllocator.EndsOnlyWhenDone | lib/include/Remotery.c:1594-1694 | whatever others do, an allocation ends only by handing out an object, and a free only with its range on the list and counted |
| ObjectAllocator.HandedOutUnlinked | lib/include/Remotery.c:1630-1632 | an object handed out has a null link and is off the list |
| ObjectAllocator.AllocAlone | lib/include/Remotery.c:1636-1675 | from every state of a run, an allocation that nobody disturbs hands out the front object of the list, or a new one if the list is empty, with its link cleared and the counters right |
| ObjectAllocator.FreeAlone | lib/include/Remotery.c:1678-1694 | freeing an object or a linked range, undisturbed, puts it in front of the list, linked to what was there, with the counters right |
| StealDeque.CopyAt | lib/include/deque.h:50-53 | copying elements t .. b to a buffer with room for them leaves each where its index looks for it |
| StealDeque.ResizedKeeps | lib/include/deque.h:50-56 | a resized buffer with room for them holds every live element, growing or shrinking |
| StealDeque.PutKeeps | lib/include/deque.h:46-48 | a write disturbs no element less than a buffer length away |
| StealDeque.StepKeepsInv | lib/include/deque.h:135-238 | every access by the owner, a thief or the reclamation scan keeps the invariant |
| StealDeque.Run | lib/include/deque.h:135-238 | ... in any interleaving of one owner and any number of thieves |
| StealDeque.EachPushClaimedOnce | lib/include/deque.h:135-210 | in any run each push is claimed by at most one successful pop or winning steal, until then is in the deque at one place, and every claim carries the value pushed |
| StealDeque.WinningStealHoldsItsElement | lib/include/deque.h:202-206 | when a thief's CAS wins it takes the oldest element, and the buffer it loaded, though grown or shrunk away since, still holds the value pushed there |
| StealDeque.PopTakesNewest | lib/include/deque.h:163-179 | a pop that sees several elements claims the newest; it gives up at its first look exactly when the deque is empty, and competes exactly when one element is left |
| StealDeque.PopTakesLast | lib/include/deque.h:171-176 | if the owner's CAS wins it has the last element and the deque is empty |
| StealDeque.ShrinkRoom | lib/include/deque.h:180-183 | a buffer is shrunk only when its elements fit in half of it, and then has a half |
| StealDeque.HeldBufferNeverFreed | lib/include/deque.h:220-238 | in any run neither the current buffer nor one that a thief inside `Deque::steal` has loaded is freed |
| StealDeque.StillGuarded | lib/include/deque.h:224-231 | each record visited extends the guarantee that no thief holds a buffer older than the minimum so far |
| StealDeque.FreeingLoopTurn | lib/include/deque.h:233-237 | one turn frees a buffer not freed before and older than the current one, and moves to the next id; or ends the loop |
| StealDeque.FreeingLoopEnds | lib/include/deque.h:233-237 | the loop ends after as many turns as buffers to free and one more, whatever thieves do meanwhile |
| StealDeque.Resize | lib/include/deque.h:50-56 | the copy loop computes the resized buffer |
| StealDeque.Deque.constructor | lib/include/deque.h:119-121 | an empty deque with one buffer of 2^4 cells |
| StealDeque.Deque.InstallResized | lib/include/deque.h:142-144 | the resized buffer becomes current and the replaced one is remembered |
| StealDeque.Deque.BeginPush | lib/include/deque.h:136-148 | `push_bottom` up to its decision to grow |
| StealDeque.Deque.Grow | lib/include/deque.h:142-148 | ... growing |
| StealDeque.Deque.PutItem | lib/include/deque.h:150-150 | ... writing the cell |
| StealDeque.Deque.Publish | lib/include/deque.h:154-154 | ... making the item visible |
| StealDeque.Deque.BeginPop | lib/include/deque.h:158-161 | `pop_bottom` lowering bottom before it looks at top |
| StealDeque.Deque.PopLook | lib/include/deque.h:163-180 | ... after its look at top; what it returns is what it claims |
| StealDeque.Deque.PopLast | lib/include/deque.h:168-176 | ... competing for the last element and restoring bottom |
| StealDeque.Deque.Shrink | lib/include/deque.h:180-187 | ... shrinking |
| StealDeque.Deque.BeginReclaim | lib/include/deque.h:221-222 | the scan's start |
| StealDeque.Deque.ReadIdle | lib/include/deque.h:224-226 | a record found idle is passed over |
| StealDeque.Deque.ReadLastUsed | lib/include/deque.h:227-230 | a busy record lowers the minimum |
| StealDeque.Deque.FreeOld | lib/include/deque.h:233-237 | one turn of the freeing loop |
| StealDeque.Deque.Register | lib/include/deque.h:95-104 | a record put on the list by CAS, spurious failures included |
| StealDeque.Deque.Announce | lib/include/deque.h:306-312 | a thief's writes to its own record |
| StealDeque.Deque.BeginSteal | lib/include/deque.h:194-202 | `steal` up to its load of the buffer |
| StealDeque.Deque.Steal | lib/include/deque.h:204-206 | the CAS, and the read after it as a step of its own |
| DequeOutcomes.OwnerEnds | lib/include/deque.h:135-190 | a push or a pop, reclamation included, ends after a bounded number of the owner's own steps, whatever thieves do; a push ends with its element pushed, and a pop with none |
| DequeOutcomes.PushAlone | lib/include/deque.h:135-155 | a push undisturbed: the buffer doubles exactly if only its spare cell is left, old buffers that no record in use names are freed, and the element is the newest |
| DequeOutcomes.PopNothing | lib/include/deque.h:157-170 | a pop undisturbed on an empty deque changes nothing |
| DequeOutcomes.PopOnly | lib/include/deque.h:171-176 | ... on a single element takes it |
| DequeOutcomes.PopOne | lib/include/deque.h:177-187 | ... on several takes the newest, halves the buffer exactly if there were more than 16 and no more than a third of it was in use, and frees what can be freed |
| DequeOutcomes.MinSeen | lib/include/deque.h:221-231 | what the scan computes is at most the current buffer's id and what each record in use says, and is one of these |
| DequeOutcomes.ReclaimAlone | lib/include/deque.h:220-238 | a reclamation undisturbed frees exactly the old buffers below that |
| DequeOutcomes.AllSwept | lib/include/deque.h:220-238 | ... which is all of them when every thief rests |
| DequeOutcomes.RegisterAlone | lib/include/deque.h:95-104 | putting a record on the list, undisturbed, takes two accesses |
| DequeOutcomes.GivesUpAtFirstLook | lib/include/deque.h:194-201 | a steal gives up at its first look exactly when bottom is not beyond top: the deque is empty, or its one element is one that the owner's pop has yet to decide on |
| DequeOutcomes.StealAlone | lib/include/deque.h:301-316 | a steal undisturbed takes the oldest element if bottom is beyond top, and nothing otherwise; its record then says idle, and names the current buffer |
| MessageQueue.SizeIsWords | lib/include/Remotery.c:3505-3511 | the rounded byte size of a message is its number of 4-byte words: header, content and padding |
| MessageQueue.StepKeepsInv | lib/include/Remotery.c:3514-3606 | every access by a producer or the consumer keeps messages tiling the stream, the ring a window of it, and each word as its message's progress says |
| MessageQueue.Run | lib/include/Remotery.c:3514-3606 | ... in any interleaving |
| MessageQueue.ConsumedOnceIntactInOrder | lib/include/Remotery.c:3561-3606 | in any run what the consumer has received is exactly the messages allocated first, in the order of their winning CASes, none skipped or repeated, each word for word as meant, and each committed |
| MessageQueue.RangesNeverOverlap | lib/include/Remotery.c:3525-3541 | in any run no two unconsumed messages share a word of the ring, across its wrap |
| MessageQueue.FreeSpaceNotReady | lib/include/Remotery.c:3591-3597 | all free space in the ring reads as not ready |
| MessageQueue.AllocationIsFresh | lib/include/Remotery.c:3531-3541 | a winning allocation gets words that are all not ready and shared with no live message |
| MessageQueue.CommitFindsNotReady | lib/include/Remotery.c:3555-3557 | the commit finds the id not ready, as the code asserts |
| MessageQueue.PeekSeesExactlyCommitted | lib/include/Remotery.c:3568-3581 | a peek yields a message exactly when the next one in order is committed |
| MessageQueue.RefusedExactlyWhenItDoesNotFit | lib/include/Remotery.c:3524-3529 | an allocation is refused exactly when it would not fit beyond the read position it saw, and by that test only |
| MessageQueue.WriteKeepsRing | lib/include/Remotery.c:3532-3532 | a write at a position of the window leaves every other position of the ring as it was |
| MessageQueue.AdvanceRing | lib/include/Remotery.c:3600-3605 | after the read position moves over cleared words the ring is again a window of the stream, zero ahead |
| MessageQueue.Queue.constructor | lib/include/Remotery.c:3471-3495 | an empty ring, all not ready |
| MessageQueue.Queue.Store | lib/include/Remotery.c:3532-3532 | one word written at a stream position, modulo the size |
| MessageQueue.Queue.AllocMessage | lib/include/Remotery.c:3514-3545 | the allocation loop, access by access |
| MessageQueue.Queue.FillMessage | lib/include/Remotery.c:3537-3539 | the words written before the commit |
| MessageQueue.Queue.CommitMessage | lib/include/Remotery.c:3548-3558 | the id written last |
| MessageQueue.Queue.PeekNextMessage | lib/include/Remotery.c:3561-3581 | the peek and the reads after it |
| MessageQueue.Queue.ConsumeNextMessage | lib/include/Remotery.c:3584-3606 | clearing, then advancing the read position |
| MessageQueue.FirstLook | lib/include/Remotery.c:3568-3570 | the peek ends at its first look exactly when every message allocated has been received |
| MessageQueue.PeekAlone | lib/include/Remotery.c:3561-3581 | the whole peek, from every state of a run: it yields the next message exactly when there is one and it is committed, and else returns with nothing changed |
| MessageQueue.ReceiveEnds | lib/include/Remotery.c:3584-3606 | a message that the peek has yielded is received after a bounded number of the consumer's steps, whatever producers do |
| MessageQueue.AllocAlone | lib/include/Remotery.c:3514-3545 | an allocation undisturbed is refused, with nothing changed, exactly when the message does not fit, and else gets the next words of the stream |
| MessageQueue.SendEnds | lib/include/Remotery.c:3532-3558 | a message that has been allocated is committed after a bounded number of its producer's steps, whatever others do |
| StripedLocks.LockIndIsMask | lib/include/cuckoohash_map.hh:995-997 | the mask is the remainder by the number of locks |
| StripedLocks.LockOrderCorrect | lib/include/cuckoohash_map.hh:887-940 | for one, two or three buckets the locks taken are exactly their stripes, strictly increasing |
| StripedLocks.StripeInRange | lib/include/cuckoohash_map.hh:1694-1701 | a stripe index fits any container made for at least that many buckets |
| StripedLocks.StepExact | lib/include/cuckoohash_map.hh:855-992 | the invariant (each lock held by exactly the thread the code says) is kept by a step if and only if the step is not the release of another thread's lock by the whole-table release loop |
| StripedLocks.CleanRunsKeepInv | lib/include/cuckoohash_map.hh:855-992 | so it holds throughout every run without such a step |
| StripedLocks.CheckPasses | lib/include/cuckoohash_map.hh:855-861 | the hashpower check passes only while the lock container read before is still the current one |
| StripedLocks.LockedBucketsAreCurrent | lib/include/cuckoohash_map.hh:870-940 | a thread that returned from lock_one, lock_two or lock_three holds its buckets' stripes of the current container, computed with the current hashpower: in every run of a table used by one thread or begun with the maximum number of locks, and in every clean run of any table |
| StripedLocks.NothingChangesWhileHeld | lib/include/cuckoohash_map.hh:942-947 | no other thread can change the hashpower or the containers until it releases |
| StripedLocks.NoBucketHeldTwice | lib/include/cuckoohash_map.hh:870-940 | no bucket is locked by two threads, nor by one while another has the whole table |
| StripedLocks.Alone | lib/include/cuckoohash_map.hh:964-992 | a thread that has the whole table shares it with no thread holding a stripe |
| StripedLocks.StepKeepsWeakInv | lib/include/cuckoohash_map.hh:821-992 | every step, also one that releases another thread's lock, keeps: whoever a taken lock is marked with counts it among its own, and every container read is large enough for its hashpower |
| StripedLocks.RunsKeepWeakInv | lib/include/cuckoohash_map.hh:821-992 | ... and so does every run, with no condition |
| StripedLocks.WaitsUpward | lib/include/cuckoohash_map.hh:878-894 | in every such state the holder of a lock that a thread waits for is inside a locking operation too, and if it waits itself, then for a lock later in the order |
| StripedLocks.FollowHolders | lib/include/cuckoohash_map.hh:878-894 | following the holders of awaited locks ends at a thread that waits for none |
| StripedLocks.SomeoneCanStep | lib/include/cuckoohash_map.hh:878-992 | no deadlock in any reachable state, also after release loops that ran on: while any thread is busy locking or holding, some busy thread has a step that changes the state, lock-all included |
| StripedLocks.NothingToSteal | lib/include/cuckoohash_map.hh:832-843 | a lone thread, or a single container of full size, leaves the release loop nothing to run into |
| StripedLocks.CleanWithoutOverrun | lib/include/cuckoohash_map.hh:832-843 | ... and so it stays in every run, since such a table never appends a container |
| StripedLocks.ReleaseCanOverrun | lib/include/cuckoohash_map.hh:832-843 | from every initial table with fewer buckets than the maximum number of locks, and two threads: a run in which the release loop goes on into a container appended since, so that one thread holds a bucket it locked under a hashpower that the other has replaced |
| StripedLocks.LockingSoundExactlyWhen | lib/include/cuckoohash_map.hh:855-992 | the exact condition: in every state of every run all locked buckets are locked in the current container with the current hashpower if and only if the table has at most one thread or begins with at least as many buckets as the maximum number of locks; exactly then also no run has the release loop take another thread's lock |
| StripedLocks.OneAtATimeIsClean | lib/include/cuckoohash_map.hh:971-992 | when whole-table operations do not overlap no release takes another thread's lock |
| StripedLocks.Locks.constructor | lib/include/cuckoohash_map.hh:1687-1701 | one container for the initial buckets, all free |
| StripedLocks.Locks.SortStripes | lib/include/cuckoohash_map.hh:918-933 | the swaps order the stripes and the equality tests drop repeats |
| StripedLocks.Locks.BeginLock | lib/include/cuckoohash_map.hh:952-954 | the hashpower read, the buckets' stripes, the current container read |
| StripedLocks.Locks.TryStripe | lib/include/cuckoohash_map.hh:895-899 | one attempt on the next stripe |
| StripedLocks.Locks.CheckHashpower | lib/include/cuckoohash_map.hh:855-861 | the check, and the release where it fails |
| StripedLocks.Locks.UnlockStripe | lib/include/cuckoohash_map.hh:821-824 | releasing stripes in any order |
| StripedLocks.Locks.LockAllStep | lib/include/cuckoohash_map.hh:975-992 | the lock-all loop, access by access |
| StripedLocks.Locks.MaybeResizeLocks | lib/include/cuckoohash_map.hh:1687-1702 | appending a larger container with all its locks held; the hashpower stays for a later step |
| StripedLocks.Locks.UnlockAllStep | lib/include/cuckoohash_map.hh:833-840 | publishing the new hashpower, and the release loop, access by access |
| LockOutcomes.LockAlone | lib/include/cuckoohash_map.hh:870-940 | from every state of a run, clean or not: a thread whose buckets' stripes of the current container are free comes, undisturbed, to hold exactly these, after one step for each and two more |
| LockOutcomes.GivesUpOnlyWhenChanged | lib/include/cuckoohash_map.hh:855-861 | a thread starts again exactly where it finds, at the check, a hashpower that is not the one its buckets were computed with |
| LockOutcomes.GaveUpMeansGrown | lib/include/cuckoohash_map.hh:855-861 | ... and in every clean run, as in every run of a table of full size or of one thread, the table has then grown |
| LockOutcomes.GiveUpAlone | lib/include/cuckoohash_map.hh:855-861 | it has then released the one stripe it took |
| LockOutcomes.UnlockAlone | lib/include/cuckoohash_map.hh:821-824 | a thread releases exactly the stripes of its buckets, in whatever order |
| LockOutcomes.LockAllAlone | lib/include/cuckoohash_map.hh:971-992 | a thread that finds the current container free comes, undisturbed, to hold all of it, and with it the table |
| LockOutcomes.ReleaseAllAlone | lib/include/cuckoohash_map.hh:832-843 | the release loop, undisturbed, frees everything from where it is to the last container, and nothing else |
| LockOutcomes.ResizeAlone | lib/include/cuckoohash_map.hh:1566-1602 | a resize undisturbed: grown to the new hashpower if the old one was as expected, a larger container appended if one is called for, and in the end every lock released |
| LockOutcomes.ResizeMakesRoom | lib/include/cuckoohash_map.hh:1687-1702 | every stripe of the new hashpower's buckets is then there, and free |
| HashTable.ProbeReaches | lib/include/Remotery.c:1984-1994 | a probe sequence visits every slot of the table |
| HashTable.MaskedNext | lib/include/Remotery.c:1993-1993 | adding one and masking is the next place of the probe sequence |
| HashTable.FreeSlotExists | lib/include/Remotery.c:1982-1983 | with fewer keys than slots some slot is free, as the comment says |
| HashTable.ProbeMisses | lib/include/Remotery.c:2059-2069 | a probe that ends at a free slot proves the key absent |
| HashTable.PlaceKeeps | lib/include/Remotery.c:1984-2003 | writing where the probe stopped stores exactly the updated map, and overwrites exactly when the key was present |
| HashTable.GrownHasRoom | lib/include/Remotery.c:2020-2025 | after growing, the keys that forced it fit below the new limit |
| HashTable.RoomForOneMore | lib/include/Remotery.c:2038-2044 | while some of the old keys are still to be put back, one more fits |
| HashTable.AllReinserted | lib/include/Remotery.c:2038-2044 | once every old slot is done the new table stores the old map |
| HashTable.HashTable.constructor | lib/include/Remotery.c:1938-1952 | an empty table of a power of two slots |
| HashTable.HashTable.FindSlot | lib/include/Remotery.c:1975-1994 | the probe loop terminates, at the key or at the first free slot after its home |
| HashTable.HashTable.Place | lib/include/Remotery.c:1986-2003 | the write and the count of occupied slots |
| HashTable.HashTable.Insert | lib/include/Remotery.c:1970-2010 | the table becomes the old map with the key set to the value, below its load limit |
| HashTable.HashTable.Reinsert | lib/include/Remotery.c:2041-2043 | an insert from inside a resize sets off no other resize |
| HashTable.HashTable.Resize | lib/include/Remotery.c:2013-2049 | a resize keeps the map and enlarges the table by the source's factors |
| HashTable.HashTable.StartAgain | lib/include/Remotery.c:2020-2036 | the new empty table |
| HashTable.HashTable.Find | lib/include/Remotery.c:2052-2070 | the last value inserted for the key, or not found |
| SampleTree.PreOrderOk | lib/include/Remotery.c:4160-4185 | the pre-order of a forest lists each sample of it once and no other |
| SampleTree.TreeOk | lib/include/Remotery.c:4160-4185 | ... and so for a tree, its root first |
| SampleTree.Flatten | lib/include/Remotery.c:4160-4185 | flattening, in place, links exactly the tree's samples in pre-order, adds exactly their number to the count, returns the last of them, and clears their child fields |
| SampleTree.FlattenChildren | lib/include/Remotery.c:4170-4177 | its loop over the children |
| SampleTree.FlattenChild | lib/include/Remotery.c:4172-4177 | one turn of its loop |
| SampleTree.SamplePool.Push | lib/include/Remotery.c:1594-1608 | a linked range goes in front of the free list |
| SampleTree.SamplePool.Free | lib/include/Remotery.c:1678-1685 | one sample freed |
| SampleTree.SamplePool.FreeRange | lib/include/Remotery.c:1688-1694 | a range freed, with its count |
| SampleTree.FreeSampleTree | lib/include/Remotery.c:4188-4199 | the free list grows by exactly the tree's samples, each once, and the counters by their number, for a single sample too |
| SampleTree.SampleTree.constructor | lib/include/Remotery.c:4029-4052 | a root alone, current |
| SampleTree.SampleTree.FindChild | lib/include/Remotery.c:4094-4105 | the first child of that name, or none |
| SampleTree.SampleTree.LinkInTree | lib/include/Remotery.c:4130-4142 | a new last child leaves every family of the tree in order |
| SampleTree.SampleTree.Append | lib/include/Remotery.c:4118-4145 | the tree gains exactly that sample, at the end of its parent's children, as the current one |
| SampleTree.SampleTree.CountCall | lib/include/Remotery.c:4100-4113 | the call and recursion counts |
| SampleTree.SampleTree.Push | lib/include/Remotery.c:4081-4148 | which of the three outcomes, exactly when; the call and recursion counts after each; and what each leaves unchanged |
| SampleTree.SampleTree.Pop | lib/include/Remotery.c:4151-4157 | the parent becomes current; the tree stays |
| SampleTree.BuildRepresents | lib/include/Remotery.c:4081-4148 | the links of any tree built by pushes represent a finite forest |
| SampleTree.BuildDistinct | lib/include/Remotery.c:4081-4148 | ... in which no sample occurs twice |
| SampleTree.BuiltTreeCanBeFreed | lib/include/Remotery.c:4188-4199 | so every tree that pushes and pops can build meets what freeing requires, with exactly its samples |
| CuckooHash.InTable | lib/include/cuckoohash_map.hh:732-749 | both candidate buckets of a key exist |
| CuckooHash.PartialInRange | lib/include/cuckoohash_map.hh:721-730 | a partial key fits its 8 bits |
| CuckooHash.PartialIsByteSum | lib/include/cuckoohash_map.hh:721-730 | halving the hash three times comes to the exclusive or of all its eight bytes |
| CuckooHash.AltIsSameExactlyWhen | lib/include/cuckoohash_map.hh:743-749 | what the tag one above the partial key is for: a key's two buckets are the same exactly when the table's size divides that tag, hence never in a table of more than 256 buckets |
| CuckooHash.AltTellsPartialsApart | lib/include/cuckoohash_map.hh:743-749 | from one bucket, two partial keys lead to the same alternate exactly when they agree modulo the table's size |
| CuckooHash.AltIsInvolution | lib/include/cuckoohash_map.hh:738-742 | the alternate of the alternate is the bucket itself, as the comment promises |
| CuckooHash.DoublingKeepsIndex | lib/include/cuckoohash_map.hh:1609-1613 | at the next hashpower the first bucket is the old one or the old one plus the old size |
| CuckooHash.DoublingKeepsAlt | lib/include/cuckoohash_map.hh:1609-1613 | so is the alternate bucket, whichever the first became |
| CuckooHash.AltOfCandidate | lib/include/cuckoohash_map.hh:738-749 | the alternate of a candidate bucket, by the stored partial, is the key's other candidate |
| CuckooHash.DoublingKeepsCandidates | lib/include/cuckoohash_map.hh:1609-1643 | a key's old bucket and its destination in doubling are candidates at the old and new hashpower |
| Buckets.BucketContainer.constructor | lib/include/libcuckoo_bucket_container.hh:108-120 | 2^hp empty buckets |
| Buckets.BucketContainer.SetKV | lib/include/libcuckoo_bucket_container.hh:196-209 | exactly one free slot becomes that item |
| Buckets.BucketContainer.EraseKV | lib/include/libcuckoo_bucket_container.hh:211-217 | exactly one occupied slot becomes free |
| Buckets.BucketContainer.Clear | lib/include/libcuckoo_bucket_container.hh:219-234 | every slot becomes free |
| Buckets.BucketContainer.Swap | lib/include/libcuckoo_bucket_container.hh:165-179 | buckets and hashpower change places |
| CuckooTable.PosIsDetermined | lib/include/cuckoohash_map.hh:1029-1040 | a table stores at most one map, with each key in one place |
| CuckooTable.InsertKeeps | lib/include/cuckoohash_map.hh:1176-1182 | filling a free slot of a candidate bucket stores the map with the new key |
| CuckooTable.EraseKeeps | lib/include/cuckoohash_map.hh:1780-1783 | freeing a key's slot stores the map without it |
| CuckooTable.AssignKeeps | lib/include/cuckoohash_map.hh:466-476 | overwriting a value stores the map with that value |
| CuckooTable.MoveKeeps | lib/include/cuckoohash_map.hh:1415-1417 | moving an item to a free slot of its other bucket stores the same map |
| CuckooTable.MatchIsKey | lib/include/cuckoohash_map.hh:1049-1054 | comparing partials first never misses or mistakes a key |
| CuckooTable.KeyIsInCandidate | lib/include/cuckoohash_map.hh:1029-1040 | a stored key is in one of its two candidate buckets |
| CuckooTable.TryRead | lib/include/cuckoohash_map.hh:1042-1057 | the first matching slot, or -1 when none matches |
| CuckooTable.TryFindInsert | lib/include/cuckoohash_map.hh:1184-1209 | a match, or else the last free slot, or -1 when the bucket is full |
| CuckooTable.CuckooFind | lib/include/cuckoohash_map.hh:1025-1040 | the key's place exactly when the map has it |
| CuckooTable.KeysFitTheirBuckets | lib/include/cuckoohash_map.hh:1075-1098 | stored keys never outnumber the slots of their candidate buckets |
| CuckooTable.KeysOfOneHash | lib/include/cuckoohash_map.hh:1075-1098 | at most two buckets' worth of keys can share a hash: why the insert loop needs a limit to end |
| CuckooTable.FullBucketKeys | lib/include/cuckoohash_map.hh:1184-1209 | a full bucket is filled by stored keys that it is a candidate of |
| CuckooSearch.GeometricSum | lib/include/cuckoohash_map.hh:1486-1488 | the source's closed form of the sum |
| CuckooSearch.QueueSize | lib/include/cuckoohash_map.hh:1494-1501 | the queue's size is exactly that of two full search trees |
| CuckooSearch.DecodeCode | lib/include/cuckoohash_map.hh:1305-1309 | reading slots off a path code gives back the slots and the start bucket |
| CuckooSearch.CodeBound | lib/include/cuckoohash_map.hh:1436-1440 | codes of d slots are below 2 S^d |
| CuckooSearch.CodesFitExactlyUpToEight | lib/include/cuckoohash_map.hh:1441-1445 | all full-length codes fit the 16-bit field if and only if a bucket has at most 8 slots, while the static assertion also admits 9 |
| CuckooSearch.ShortestIsDistinct | lib/include/cuckoohash_map.hh:1508-1551 | a shortest eviction walk to a bucket with room visits no bucket twice |
| CuckooSearch.WalkQueued | lib/include/cuckoohash_map.hh:1522-1547 | every eviction walk whose shorter walks are expanded ends in the bucket of a queue entry of its level |
| CuckooSearch.SearchedBelow | lib/include/cuckoohash_map.hh:1522-1547 | once a level is expanded without success no shorter walk leads to room |
| CuckooSearch.PushChild | lib/include/cuckoohash_map.hh:1536-1545 | one more child keeps the queue's shape and never overruns its array |
| CuckooSearch.QueueNeverFull | lib/include/cuckoohash_map.hh:1536-1545 | the source's assertion that the queue's array has space left, at every append |
| CuckooSearch.EnqueueChild | lib/include/cuckoohash_map.hh:1536-1545 | one child appended, unless the path has its full length; nothing queued before changes |
| CuckooSearch.Expand | lib/include/cuckoohash_map.hh:1523-1547 | an entry is expanded completely, or its bucket has room and its code is completed |
| CuckooSearch.SlotSearch | lib/include/cuckoohash_map.hh:1514-1551 | the nearest bucket with room, by number of evictions; failure only if none is reachable with fewer than 5 |
| CuckooPath.EntryPath | lib/include/cuckoohash_map.hh:1517-1547 | the ancestors of a queue entry are a walk of evictions whose code is the entry's pathcode |
| CuckooPath.FoundDecodes | lib/include/cuckoohash_map.hh:1305-1320 | the code of a found entry decodes to its walk and its start bucket |
| CuckooPath.DecodeSlots | lib/include/cuckoohash_map.hh:1305-1309 | the decoding loop |
| CuckooPath.FollowPath | lib/include/cuckoohash_map.hh:1331-1348 | following alternate buckets from the start recovers every record of the walk |
| CuckooPath.CuckooPathSearch | lib/include/cuckoohash_map.hh:1298-1349 | a shortest path of evictions from an insert bucket to a free slot, its buckets distinct and its hashes those of the items; -1 only if no room is within reach |
| CuckooPath.MoveAlong | lib/include/cuckoohash_map.hh:1399-1417 | one move keeps the map, and the rest of the path good |
| CuckooPath.MoveOne | lib/include/cuckoohash_map.hh:1399-1423 | one turn of the move loop; its checks pass |
| CuckooPath.CuckooPathMove | lib/include/cuckoohash_map.hh:1359-1425 | the moves all succeed, keep the map, and free the path's first slot |
| CuckooPath.RunCuckoo | lib/include/cuckoohash_map.hh:1237-1288 | one search and one sequence of moves suffice: a free slot in an insert bucket with the map unchanged, or the table unchanged and nothing reachable |
| CuckooPath.GoodPathHasRoom | lib/include/cuckoohash_map.hh:1298-1349 | a path found proves that room was within reach |
| CuckooDouble.HighAt | lib/include/cuckoohash_map.hh:1616-1648 | the movers of a bucket go to consecutive slots of the new bucket, in order |
| CuckooDouble.NewPosStored | lib/include/cuckoohash_map.hh:1626-1648 | each moved key is in a candidate bucket at the new hashpower, with its partial |
| CuckooDouble.OldSlotOf | lib/include/cuckoohash_map.hh:1605-1651 | every occupied new slot comes from exactly one old slot |
| CuckooDouble.DoublingKeepsMap | lib/include/cuckoohash_map.hh:1572-1577 | the doubled table stores the same map |
| CuckooDouble.WorkersCommute | lib/include/cuckoohash_map.hh:1749-1774 | workers on disjoint ranges give the same table in either order |
| CuckooDouble.RangesJoin | lib/include/cuckoohash_map.hh:1760-1765 | two adjoining ranges give what their union gives |
| CuckooDouble.MoveBucket | lib/include/cuckoohash_map.hh:1607-1650 | one bucket's items reach exactly their destinations; no slot is written twice |
| CuckooDouble.MoveBuckets | lib/include/cuckoohash_map.hh:1605-1651 | one worker's range |
| CuckooDouble.MoveAll | lib/include/cuckoohash_map.hh:1749-1774 | the source's split over any number of threads moves every bucket |
| CuckooMap.ReserveCalc | lib/include/cuckoohash_map.hh:1818-1825 | the smallest hashpower that holds n elements |
| CuckooMap.LoadBoundsHashpower | lib/include/cuckoohash_map.hh:1665-1667 | a load factor above a positive minimum bounds the hashpower by the number of elements |
| CuckooMap.NextSlot | lib/include/cuckoohash_map.hh:1727-1732 | after slot (i, j) the new map has exactly one key more, or none if the slot is free |
| CuckooMap.FullMeansCrowded | lib/include/cuckoohash_map.hh:1164-1170 | when no room is in reach, each of the key's two buckets is full of other stored keys |
| CuckooMap.GrownForMore | lib/include/cuckoohash_map.hh:1074-1098 | a reason to double found with some of the elements stored is one with all of them |
| CuckooMap.StuckByMore | lib/include/cuckoohash_map.hh:1659-1675 | an insert refused for its load has been refused by a full bucket of a table too large for it |
| CuckooMap.FailedExpansionKeepsMapExactlyWhen | lib/include/cuckoohash_map.hh:1553-1556 | after an expansion that failed at some slot the table still stores the map if and only if moving from the elements before it leaves them as they were |
| CuckooMap.CuckooMap.constructor | lib/include/cuckoohash_map.hh:1818-1825 | an empty map of the smallest sufficient hashpower, with the default limits |
| CuckooMap.CuckooMap.Size | lib/include/cuckoohash_map.hh:335-345 | the sum of the current counters, some perhaps negative, is the number of keys |
| CuckooMap.CuckooMap.LoadFactorBelow | lib/include/cuckoohash_map.hh:360-362 | size over capacity against the minimum |
| CuckooMap.CuckooMap.AddToBucket | lib/include/cuckoohash_map.hh:1176-1182 | the map gains the pair, and one counter goes up |
| CuckooMap.CuckooMap.DelFromBucket | lib/include/cuckoohash_map.hh:1780-1783 | the map loses the key, and one counter goes down |
| CuckooMap.CuckooMap.Lookup | lib/include/cuckoohash_map.hh:1029-1040 | found exactly when the map has the key, at its place |
| CuckooMap.CuckooMap.Find | lib/include/cuckoohash_map.hh:574-583 | the map's value, or not found |
| CuckooMap.CuckooMap.UpdateFn | lib/include/cuckoohash_map.hh:466-476 | fn applied to an existing value; nothing else changes |
| CuckooMap.CuckooMap.EraseFn | lib/include/cuckoohash_map.hh:490-502 | the functor's verdict on an existing element; nothing else changes |
| CuckooMap.CuckooMap.Clear | lib/include/cuckoohash_map.hh:1787-1793 | the empty map, counters included |
| CuckooMap.CuckooMap.CuckooInsert | lib/include/cuckoohash_map.hh:1119-1171 | duplicate exactly when present; or a free slot in a candidate bucket; or full, meaning no room within reach |
| CuckooMap.CuckooMap.InsertInPlace | lib/include/cuckoohash_map.hh:1120-1136 | the same without evictions |
| CuckooMap.CuckooMap.CheckResizeValidity | lib/include/cuckoohash_map.hh:1659-1675 | refused exactly when over the maximum or, if automatic, below the load factor |
| CuckooMap.CuckooMap.MaybeResizeLocks | lib/include/cuckoohash_map.hh:1687-1702 | a larger lock container keeps the counters' sum |
| CuckooMap.CuckooMap.Adopt | lib/include/cuckoohash_map.hh:1595-1601 | the new buckets swapped in store the same map, with locks enough |
| CuckooMap.CuckooMap.Double | lib/include/cuckoohash_map.hh:1578-1601 | the hashpower grows by one and the map stays |
| CuckooMap.CuckooMap.FastDouble | lib/include/cuckoohash_map.hh:1557-1603 | refused with everything unchanged, or doubled, the load not below its minimum, and not beyond the growth limit if there is one |
| CuckooMap.CuckooMap.GrowthIsBounded | lib/include/cuckoohash_map.hh:1659-1675 | an automatic expansion that is let through starts below a limit fixed by the contents and the limits set |
| CuckooMap.CuckooMap.InsertOrDouble | lib/include/cuckoohash_map.hh:1077-1096 | one turn of the insert loop: done, or doubled because other keys fill both of the key's buckets and the load allows it |
| CuckooMap.CuckooMap.CuckooInsertLoop | lib/include/cuckoohash_map.hh:1074-1098 | the loop ends, by finding a place, the duplicate or an exception, the map unchanged in each case; it has doubled from each hashpower only with that reason, and throws only when both buckets are full |
| CuckooMap.CuckooMap.UpraseFn | lib/include/cuckoohash_map.hh:525-539 | the plain map's uprase, or an exception with the map unchanged, the key absent and its buckets full |
| CuckooMap.CuckooMap.Upsert | lib/include/cuckoohash_map.hh:547-555 | the plain map's upsert |
| CuckooMap.CuckooMap.Insert | lib/include/cuckoohash_map.hh:607-610 | the plain map's insert: an existing value stays |
| CuckooMap.CuckooMap.ExpandSimple | lib/include/cuckoohash_map.hh:1711-1747 | on success the same map, at the hashpower asked for or one it grew to, each doubling with a reason in the contents; on failure the old table with everything before some slot moved out: nothing if over the maximum, else at least one element |
| CuckooMap.CuckooMap.MoveBuckets | lib/include/cuckoohash_map.hh:1724-1738 | the loops that move elements to the new map: in it is exactly what has been moved out of this one, and it has grown for those elements only |
| CuckooMap.CuckooMap.MoveSlot | lib/include/cuckoohash_map.hh:1728-1732 | an element is moved out only once the new map has it; if the new map refuses it, its buckets there are full |
| CuckooMap.CuckooMap.Rehash | lib/include/cuckoohash_map.hh:1797-1803 | on success the map stays and the report is as Resized says; it fails if every hashpower it can come to has too few slots for some keys, and, the maximum apart, only if it can come to one that refuses an element; a failure leaves the map stored if moves change no element, and not if they change each |
| CuckooMap.CuckooMap.Reserve | lib/include/cuckoohash_map.hh:1805-1812 | room for n elements on success, and the map stays; true is returned exactly when the hashpower was not the smallest that holds n, and otherwise nothing has changed |
| CuckooResize.ReportIsTrueWhen | lib/include/cuckoohash_map.hh:638-651 | from the contents before the call: the report is true when asked to grow, and when some hashpower in between gives no reason to grow; the table does not shrink if its elements are more than half its slots or too many for their buckets at each smaller hashpower, and then it says that it did |
| CuckooResize.RehashReportsNoChange | lib/include/cuckoohash_map.hh:1797-1803 | a run: two full buckets, a rehash to one, and true is returned although the hashpower is the same |
| CuckooResize.TooManyForTable | lib/include/cuckoohash_map.hh:638-646 | more elements than slots is one way to have too many keys for their buckets |
| CuckooResize.SpreadNoRoom | lib/include/cuckoohash_map.hh:1711-1726 | 2 S + 1 keys which share both buckets at every hashpower that growing from 0 can come to |
| CuckooResize.FailedExpansionCanLoseKeys | lib/include/cuckoohash_map.hh:1724-1738 | a run: those keys in a map of 2^13 buckets, a rehash to hashpower 0, which fails with elements moved out, so that the map is no longer stored |

## Left out

- Weak memory orderings: all step systems are sequentially consistent, so fences and the choice of memory order are not modelled.
- Spin counts, clocks and the scheduler: whether a spin gives up, a weak compare-and-swap fails or a wait times out is an input of the step.
- Arrays inside step systems: block cells and flags, block indexes, deque buffers, the ring's words, bucket arrays, lock containers and the search queue are sequence-valued fields; the free list's nodes and the hash table's slots are arrays.
- The number of threads using one free list stays below 2^30: a node's reference count has 31 bits.
- StripedLocks.OneAtATimeIsClean: one way only, since runs whose whole-table operations overlap may still go well; the condition that is exact, over all runs of a table, is that of StripedLocks.LockingSoundExactlyWhen.
- FreeList.List.Add: starting a call is a step of the model only, as it makes no access.
- ExplicitRing.ExplicitProducer.NewBlock: the size limit, `CannotAlloc` and a failed allocation are one input, to give up or not; a block taken from the pool is modelled as a new one, since the producer clears it before anyone can see it.
- ExplicitRing.ExplicitProducer.SetEmpty: blocks too large for flags count dequeued elements instead; that variant is not modelled.
- ExplicitRing.UnsignedOffsetAgrees: word-sized indices are unbounded everywhere else; wrap-around of the queue's counters is not modelled.
- `dequeue_bulk` with a maximum of 0: the code then reads an index entry for no element; the model stops before that read.
- Bulk enqueue, throwing constructors and assignments, the implicit producers, and moving or swapping whole queues.
- Semaphore.LightweightSemaphore.Block: the kernel semaphore is a counter; its own implementation on each platform is not modelled.
- ObjectAllocator.Allocator.Alloc: a failing allocation or object constructor is not modelled.
- StealDeque.Deque.Steal: what a thief reads after its winning compare-and-swap is not promised to be the value pushed, since the owner may have reused the cell by then; the claim is about the instant of the swap.
- StealDeque.Deque.Announce: the buffer id that a thief reads after its steal is taken as one access; that the buffer still exists at that access is not claimed.
- StealDeque.Deque.BeginSteal: the thief keeps `b - t` in an `int`; the model does not truncate it.
- MessageQueue.Queue.AllocMessage: read and write positions are unbounded counters and the mirrored memory is an index modulo the size; sizes beyond 32 bits are not cut.
- MessageQueue.Queue.FillMessage: thread pointer and payload are words of the content, written in order; a client may write its payload in any order before the commit.
- HashTable.HashTable.Insert: 32-bit wrap of the slot count and of the load computation, and a failed allocation, are not modelled.
- SampleTree.SampleTree.Push: timing fields and the unique id computed by hash combination are left out, and recursion depth does not wrap at 16 bits.
- The cuckoo map's operations are proved in locked-table mode; its locking is proved separately, with runs whose resizes only grow.
- CuckooMap.CuckooMap.FastDouble: the branch for key or value types whose move may throw calls the other expansion, which is modelled for `rehash` and `reserve` only.
- CuckooMap.CuckooMap.CuckooInsertLoop: asks for a positive minimum load factor or a maximum hashpower; with neither, keys of one hash can make the source double for ever.
- CuckooMap.CuckooMap.UpraseFn: asks for the same, as it calls that loop.
- CuckooMap.CuckooMap.Upsert: asks for the same.
- CuckooMap.CuckooMap.Insert: asks for the same.
- CuckooMap.CuckooMap.LoadFactorBelow: the load factor is an exact quotient, without the rounding of `double`.
- CuckooDouble.MoveAll: workers run one after the other; `CuckooDouble.WorkersCommute` shows that their order does not matter. The workers of the other expansion are modelled as one.
- CuckooSearch.SlotSearch: more than 8 slots in a bucket are left out, as their path codes do not fit.
- CuckooSearch.PushChild: at most 8 slots in a bucket, as above.
- CuckooSearch.QueueNeverFull: at most 8 slots in a bucket, as above.
- CuckooSearch.EnqueueChild: at most 8 slots in a bucket, as above.
- CuckooSearch.Expand: at most 8 slots in a bucket, as above.
- CuckooPath.CuckooPathSearch: at most 8 slots in a bucket, as above.
- CuckooPath.RunCuckoo: at most 8 slots in a bucket, as above.
- CuckooMap.CuckooMap.constructor: at most 8 slots in a bucket, as above.
- Iterators, comparison, copying and stream operators of the cuckoo map, its setters for limits, and allocators.
- Nodes, ports, graphs, workspaces, timers, the web-socket server, JSON messages, Remotery's sockets, GPU back ends and threads, SHA-1, Base64, proquint and logging: plumbing, or encoders of fixed shape that would only add easy members.
