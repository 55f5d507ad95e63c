# A verified model of CXL-SHM

CXL-SHM is an allocator with reference counting in memory that several machines share. Any
client may die between two statements, and a monitor then repairs what it left, while the
other clients keep running. This project models the parts where that is difficult and proves
what they promise.

- **Reference counts and crash recovery** (`RefInfo`, `RedoLog`, `Era*`, `Monitor`,
  `Cascade`). Every shared object has one word with an owner id, a count and an era.
  `link_reference` and `unlink_reference` read it, note the era they saw in a matrix, write a
  record in an eight-line ring, swap the word, write the slot and bump their era. After a crash
  the monitor decides from the object's stamp and the matrix whether the swap took effect. The
  protocol is a step relation over the whole shared memory (`EraProtocol`), one step per access,
  with crashes and the monitor's own steps in between. `EraInvariant` is the inductive invariant,
  `EraSteps` shows that every step keeps it, and the theorems about runs follow in `EraTheorems`,
  `EraHistory`, `EraRelease`, `EraRange` and `EraHazard`; `EraProgress` and `EraRecovery` show that
  operations and recoveries get through, and what they have done then. `Monitor` has `redo_ref_cnt`
  as the loop it is, proved to do what the protocol's monitor steps do. `Cascade` has the recursive
  release.
- **Pages, segments and free lists** (`Addresses`, `Pages`, `PageHeap`, `RemoteFree`,
  `PageQueue`, `Segments`, `Allocator`, `Reclaim`). `Pages` and `PageHeap` are the blocks of one client
  in all its segments: lists threaded through blocks, carving, local and remote frees, collection
  and the recycling rule that protects the redo ring. `RemoteFree` is the lock-free stack
  under full interleaving. `PageQueue` and `Segments` are the doubly linked page queues, the claiming
  of segments, the accounting of their pages and the queues of the size classes. `Allocator` puts the
  two together with the count words: allocation with its slow path, and freeing up to the segment given
  back. `Reclaim` is the monitor's sweep over what a dead client's allocator left.
- **The message queue** (`SpscQueue`, `SpscSteps`, `SpscTheorems`, `SpscProgress`, `QueueSweep`): sender and receiver
  interleaved at each access and with whatever others do to the counts, with crashes, replays, root
  scans and sweeps of either side at any point, and the loops of the scans and sweeps.
- **The hash index** (`HashIndex`, `HashReaders`): chained buckets as a map, and readers
  interleaved with writers one word at a time.

What mutates in the program mutates here: queues, segments, pages, the index, the message queue,
the redo ring and the object graph are classes with loops. What several parties do at once is a
state machine, since there the interleaving is the point.

## Where the code does not keep the promise

- The replay does not compare the record with the client's own era, so it also replays the
  record of a completed operation (src/recovery.cpp:198-252). That writes what the slot holds
  already, except when the slot went to another client since, as queue slots do, and changed
  there. `EraHazard.ReplayOfGivenSlot` is a reachable state in which the replay puts a reference
  that nobody counts back into a queue slot. `EraHazard.RedoExact` gives the exact condition: the
  replay keeps the invariant of all runs if and only if the step is not `Harmful`, which is a test on
  the slot, the record and the operation the slot's new owner is in. `MiscountsAtOnce` and
  `MiscountsLater` say what a harmful one does to the counts. Runs (`EraTheorems.Run`) leave out
  exactly the harmful replays; `EraRange.RootRunsAreClean` shows that nothing is left out when slots
  stay with their clients, as the slots of roots do.
- In the reference queue this happens in an ordinary run: the sender sends and rests, the receiver
  takes the object, the sender dies. Its newest record is a completed link, and the replay puts the
  object back into its slot, where nobody counts it. `SpscTheorems.HauntBegins` says that this is so
  exactly when the recorded slot no longer holds the object. A sweep that visits the slot while anybody
  else still holds the object gives back a count too many (`OverBegins`), so the object can be freed
  while it is in use: in `SpscTheorems.StaleReplay` the last count of the receiver's live root goes.
  When nobody holds it any more, its count is 0, `recovery_test_free` skips the slot
  (src/recovery.cpp:455), and the slot stays full with the address of a freed block:
  `SpscTheorems.LeftFull` is such a run with one side dying while the other works on. Once both sides
  are recovered the ring is empty if and only if this has not happened (`EmptyInTheEnd`, over all runs).
  When both sides are down at the same time the order matters: `SpscTheorems.RecoveryExact` gives, for
  either order, the exact conditions `StaysFull` and `GivenTwice` on the state at the crash. Recovering
  the receiver first goes wrong whenever the sender's newest record is a completed link and a receiver
  was attached, even if the object is still in the queue (`QueueSweep.OrderMatters`).
- `put` accepts every key, but `get` looks only in the partition that the key's top byte names
  (src/hash_index.cpp:7, src/hash_index.cpp:37-39). `HashIndex.FoundExactlyInOwnPartition` says for
  which keys a `put` is ever found.
- A client whose id is 65 or more has its buckets beyond the table, inside the segments
  (src/hash_index.cpp:7), and `get` of a key with a top byte of 64 or more reads there
  (src/hash_index.cpp:37-39). `HashIndex.BucketsApart` says that a bucket lies before the segments if
  and only if its partition is one of the first 64.

## Model

| member | source | states |
|---|---|---|
| RefInfo.UnpackPack | include/cxlmalloc-internal.h:132-153 | the getters give back the fields that were packed, for all fields in range |
| RefInfo.PackUnpack | include/cxlmalloc-internal.h:132-153 | packing what the getters read gives back any 64-bit word |
| RefInfo.CasComparesFields | src/cxl_shm.cpp:195-198 | a swap that compares packed words compares exactly id, count and era |
| RefInfo.StepFits | src/cxl_shm.cpp:195 | the count written is the one meant, and the id stays, exactly when it neither passes 65535 nor goes below zero |
| RedoLog.NewestIsLast | src/recovery.cpp:190-197 | the max-era scan yields the last record since the last clear, or an empty one |
| RedoLog.WriteKeepsRingOk | src/cxl_shm.cpp:191-193 | indexing by era mod 8 never overwrites a newer record, also when a retry writes the same era again |
| RedoLog.RedoRing.Write | src/cxl_shm.cpp:191-193 | a record goes to its line, and becomes the last one |
| RedoLog.RedoRing.Clear | src/page.cpp:11 | after the clear there is no record |
| RedoLog.RedoRing.Scan | src/recovery.cpp:190-197 | the loop returns the last record written |
| EraSteps.RefStep | src/cxl_shm.cpp:157-260 | every access of link, unlink and the freeing of a dead object keeps the global invariant |
| EraSteps.OwnStep | src/alloc.cpp:51-73 | so does every access of an allocation, the clearing of the ring and the hand-over of a slot |
| EraSteps.MonStep | src/recovery.cpp:186-306 | so do a crash and every step of the monitor, while the others keep running |
| EraTheorems.RunInv | src/cxl_shm.cpp:157-260 | the invariant holds in every state of every run of any number of clients |
| EraTheorems.CrashConsistentCounting | src/cxl_shm.cpp:157-260 | in every reachable state an object's count is the slots holding it, plus links swapped but not stored, minus slots that still hold it under a swapped operation, minus roots of unfinished allocations |
| EraTheorems.RedoDecisionExact | src/recovery.cpp:198-252 | though survivors run on and overwrite, free and reuse the object while the rows are read one by one, the monitor decides to replay if and only if the swap of the newest record took effect; only for a completed unlink whose object the client freed afterwards it may decide either way |
| EraTheorems.ReplayRepeats | src/recovery.cpp:221-252 | replaying a completed operation writes what its slot holds already, unless the slot was handed over |
| EraTheorems.RedoSettles | src/recovery.cpp:221-252 | after the replay each slot of the dead client counts for what it holds; nothing is pending |
| EraTheorems.ScanRule | src/recovery.cpp:288-301 | the root scan skips exactly the root of an unfinished allocation and releases exactly the roots that are counted; `EraProgress.ReleaseAlone` says what a release does |
| EraTheorems.RecoveredLeavesNothing | src/recovery.cpp:274-306 | once the scan is over no count contains a share of the dead client |
| EraProgress.ReleaseAlone | src/recovery.cpp:448-498 | left alone, every step of the release of a counted root can be made in turn, to the end: the root is null, the count one lower, and the last one frees the block |
| EraRecovery.MonitorAdvances | src/recovery.cpp:186-306 | in every state of a recovery the monitor has a next step, and each brings the end closer |
| EraRecovery.MonitorFinishes | src/recovery.cpp:186-306 | left alone it gets from any point of a recovery to its end, with all slots null, or to the brink of a harmful replay |
| EraRecovery.RecoveryCompletes | src/recovery.cpp:186-306 | every run in which a client has crashed can so go on to the end of its recovery, and there every object has been decremented exactly once for each slot that counted for it at the crash or was handed in with it |
| EraRelease.RecoveredOnlyUnlinks | src/recovery.cpp:448-498 | from its replay on, nothing is ever linked in the name of a dead client |
| EraRelease.ReleasedSoFar | src/recovery.cpp:186-306 | from a crash at any point on, with the survivors running and also handing slots to the dead client: for every object, the monitor's decrements plus the slots of the client that count for it now are the slots that counted for it at the crash plus those handed in with it since |
| EraRelease.ReleasedExactlyOnce | src/recovery.cpp:186-306 | so once no slot of the client is full, which `EraRecovery.RecoveryCompletes` shows to come, every object has been decremented exactly once for each slot that counted for it at the crash or was handed in with it, and not for any other slot |
| EraTheorems.MatrixBetween | src/cxl_shm.cpp:178-188 | over a run no matrix entry goes back, and none exceeds the largest era its client has committed |
| EraTheorems.OverwriteIsSeen | src/cxl_shm.cpp:182-198 | before a stamp of another client is overwritten, the writer's row covers it |
| EraHistory.StampIsFresh | src/cxl_shm.cpp:112-116 | a client that is not being recovered stamps with an era above all its stamps in memory |
| EraHistory.StampInstalledOnce | src/cxl_shm.cpp:180-204 | such a client installs each stamp at most once in a run |
| EraHistory.WordStaysBack | src/cxl_shm.cpp:168-198 | a stamped word present at two moments of a run was present at every moment between |
| EraHistory.NoWriteIntervened | src/cxl_shm.cpp:168-198 | a successful swap means that nobody wrote the word since it was read (no ABA) |
| EraHistory.CasOnlyOnLive | src/cxl_shm.cpp:218-249 | link and unlink swap only words with a positive count, and change it by one |
| EraHistory.DeadUntilBirth | src/cxl_shm.cpp:157-206 | no link brings a freed object back: only an allocation does |
| EraHistory.DiesOncePerLife | src/cxl_shm.cpp:218-258 | between two swaps from 1 to 0 of one object there is an allocation of it |
| EraHistory.FreedOncePerLife | src/cxl_shm.cpp:256-258 | so no block is freed twice in one life |
| EraHistory.OneUndertaker | src/cxl_shm.cpp:256-258 | at most one client is about to free an object, which no slot holds by then |
| EraProgress.UnlinkAlone | src/cxl_shm.cpp:208-260 | left alone, every step of an unlink can be made in turn, to the end: the slot is null, the count one lower, and at the last count the header is zero and the block on a free list; nothing else has changed |
| EraProgress.LinkAlone | src/cxl_shm.cpp:157-206 | the same for a link: the slot has the object and the count is one higher |
| EraProgress.AllocAlone | src/alloc.cpp:51-73 | the same for an allocation: the root has the block, which is off its free list and has its first count |
| EraProgress.RecycleAlone | src/page.cpp:7-50 | a freed block can be allocated again, to any empty slot, once the ring is cleared |
| EraProgress.KilledIsFreed | src/cxl_shm.cpp:218-258 | over runs: between the swap of a client that takes the last count and the next operation of that client, it frees the object, unless it has crashed in between |
| EraProgress.DeadIsBeingFreed | src/cxl_shm.cpp:218-258 | in every state of a run an object without a count that is not freed has a client on its way to free it, whose next step is possible; unless that client crashed after its swap |
| EraProgress.DyingGoesOn | src/cxl_shm.cpp:250-258 | that client's third step at the latest frees the block |
| EraProgress.ClientAdvances | src/cxl_shm.cpp:157-260 | a client in an operation always has a next step, and each brings the end closer |
| EraRange.EraBound | src/cxl_shm.cpp:204 | an era is at most one more than the number of steps of the run |
| EraRange.NothingOverflows | include/cxlmalloc-internal.h:132-135 | with fewer than 2^16 slots no run shorter than 2^32 steps has a word that does not fit |
| EraRange.PackedCasIsExact | src/cxl_shm.cpp:198 | in such runs the swap on packed words decides what the model decides field by field |
| EraRange.RootRunsAreClean | src/recovery.cpp:198-252 | when slots stay with their clients, every run is one the theorems speak of |
| EraRange.CountingWithoutHandOvers | src/cxl_shm.cpp:157-260 | there the slots under a swapped operation are exactly those of unlinks swapped but not cleared, and the count is holders plus pending links minus pending unlinks minus unfinished roots |
| EraHazard.RedoExact | src/recovery.cpp:198-252 | the replay keeps the invariant of all runs, and so all counts from then on, if and only if it does not overwrite a slot that was handed over and changed, unless an operation past its swap writes that slot anyway |
| EraHazard.MiscountsAtOnce | src/recovery.cpp:221-252 | a harmful replay makes a count wrong in the same step, unless it hits the root of an unfinished allocation |
| EraHazard.MiscountsLater | src/alloc.cpp:51-73 | there it makes the count wrong with the stamp that ends the allocation, wherever its owner, still running, has got to |
| EraHazard.ReplayOfGivenSlot | src/recovery.cpp:186-225 | a reachable state in which the replay leaves an uncounted reference |
| Monitor.ScanAllDecides | src/recovery.cpp:210-219 | all scan steps together compare the record with the largest era seen in any other row |
| Monitor.RedoAloneWrites | src/recovery.cpp:198-252 | what the monitor's steps, uninterrupted, do to the slots |
| Monitor.SharedMemory.LargestSeen | src/recovery.cpp:210-217 | the loop over the rows returns the maximum, the own row left out |
| Monitor.SharedMemory.RedoRefCnt | src/recovery.cpp:186-252 | the code writes exactly what the protocol's monitor steps write |
| Cascade.UnlinkOk | src/cxl_shm.cpp:208-260 | dropping one slot keeps count equal to in-degree |
| Cascade.ObjectGraph.UnlinkReference | src/cxl_shm.cpp:208-260 | the slot is cleared, the count drops by one, and the object is freed exactly at zero |
| Cascade.ObjectGraph.TestFree | src/cxl_shm.cpp:269-297 | the recursion ends on every graph, cyclic ones included, keeps count equal to in-degree, clears only slots of freed objects, and frees only what the least closed set contains |
| Cascade.ObjectGraph.DropEmbedded | src/cxl_shm.cpp:287-294 | the loop leaves every embedded slot of the object null |
| Cascade.ObjectGraph.ReleaseRoot | src/cxl_ref.cpp:64 | from a root, the freed objects are exactly the least set closed under losing all one's slots |
| Cascade.DroppedIsClosed | src/cxl_shm.cpp:269-297 | when every live object is still held, nothing that had to be freed was left behind |
| Cascade.ObjectGraph.NoLeak | src/cxl_shm.cpp:269-297 | on acyclic graphs every live object hangs on a slot outside all objects |
| Pages.TakeKeeps | src/cxl_shm.cpp:105-108 | taking the head of a free list yields a block that is on no list of any segment and not logged |
| Pages.PutKeeps | src/alloc.cpp:95-99 | a local free keeps all lists disjoint and `used` exact |
| Pages.PushKeeps | src/alloc.cpp:126-130 | a remote free keeps them too, and the block still counts as used |
| Pages.PopKeeps | src/page.cpp:87-102 | one round of the collection moves the top of the stack to the local list of its own page |
| Pages.RefillKeeps | src/page.cpp:38-49 | the local list becomes the free list only with the ring cleared |
| Pages.CarveKeeps | src/page.cpp:164-207 | a carved page joins the segment with all its blocks free |
| Pages.RetireKeeps | src/page.cpp:210-218 | a page with `used` 0 leaves without taking a live block or one of the stack along |
| Pages.Conservation | src/alloc.cpp:75-107 | used + free + local = PAGE_SIZE / block_size, and `used` is 0 exactly when no block is live or waiting to be collected |
| Pages.ThreadedChain | src/page.cpp:189-205 | the links set by carving visit each block once, in address order, and end |
| PageHeap.ThreadPage | src/page.cpp:181-205 | the init loop links every block to the next one and touches no other link |
| PageHeap.Heap.Record | src/cxl_shm.cpp:191-193 | writing a record keeps the rule that blocks with a slot the ring names are not on a free list |
| PageHeap.Heap.Take | src/cxl_shm.cpp:102-108 | the new whole state: `free` is the link of the block, `used` grows by one; the block was free, and the redo ring names no slot in it |
| PageHeap.NotNamed | src/page.cpp:7-20 | so every slot of a block that is not logged may become a root without the ring naming it, as the protocol demands |
| PageHeap.Heap.PutLocal | src/alloc.cpp:95-99 | the new whole state of a local free: the block heads `local_free`, `used` falls by one |
| PageHeap.Heap.FreeLocally | src/alloc.cpp:92-107 | the new whole state: the block heads `local_free` and `used` is one less, or the page is given back, exactly when none of its other blocks is live or on the stack |
| PageHeap.Heap.FreeRemotely | src/alloc.cpp:110-130 | the block becomes the top of the stack of its own segment |
| PageHeap.Heap.Collect | src/page.cpp:53-104 | the walk ends, and everything on the segment's stack is on the local list of its page |
| PageHeap.Heap.FreeCollect | src/page.cpp:33-50 | afterwards a page without a free block has only live blocks |
| PageHeap.Heap.Carve | src/page.cpp:164-207 | the whole state after the initialisation of a page |
| PageHeap.Heap.Conserved | src/alloc.cpp:75-107 | block conservation in every state the methods reach |
| Allocator.CollectQueue | src/page.cpp:107-125 | following the links of a queue that mixes pages of several segments: a page with a free block, or all blocks of all its pages are live |
| Allocator.Allocator.FindPage | src/page.cpp:7-30 | pages, queues, accounts and count words stay consistent, no block is lost and none becomes live; unless the first page has a free block the ring is cleared before any freed block can be handed out; a fresh page is carved only when the queue has nothing to give, a segment claimed only for lack of a free page, and there is no page only when every segment has an owner |
| Allocator.Allocator.AllocBlock | src/alloc.cpp:20-31 | exactly one block becomes live, the one returned; no block is lost, and the redo ring names no slot in it |
| Allocator.Allocator.AllocObject | src/alloc.cpp:51-73 | the same for an object: the block was not counted and gets its first count, and it lies on a page queued for its class |
| Allocator.Allocator.UnlinkObject | src/cxl_shm.cpp:208-260 | the count falls by one, and the block leaves the counted ones exactly at zero |
| Allocator.Allocator.FreeBlock | src/alloc.cpp:75-107 | the block heads the local list of its page and `used` is one less, unless no other block of the page is live or waiting to be collected: then exactly the page leaves its queue, found from its block size; that no counted block lay on it follows from `used` being 0 |
| Allocator.Allocator.LinkObject | src/cxl_shm.cpp:157-206 | a link on a counted block raises its count, and the counted blocks stay the same |
| Allocator.Allocator.FreeRemote | src/alloc.cpp:108-131 | a block freed by another client goes on the stack of its segment, and everything still fits |
| Allocator.Allocator.GivePage | src/page.cpp:210-233 | the page goes to free_page and, when it was the last one in use, its segment to nobody, with everything else kept |
| Allocator.FreeFits | src/alloc.cpp:101-105 | `used` falls to 0 only on a page without counted blocks, and the pages left match the queues without it |
| Allocator.QueueOf | src/alloc.cpp:104 | the block size in a page header leads back to the queue the page is on |
| RemoteFree.StepKeeps | src/alloc.cpp:115-130 | every access of every client and of the owner keeps all lists acyclic and disjoint |
| RemoteFree.ArrivesOnce | src/page.cpp:62-102 | under any interleaving each successful push has reached a local list once, or is on its way, once |
| RemoteFree.ListsSeparate | src/page.cpp:92-96 | local lists hold only blocks of their own page, none of which is on the stack |
| RemoteFree.NothingLost | src/page.cpp:62-82 | with the owner done and the stack empty, nothing freed is missing |
| RemoteFree.NeverStuck | src/page.cpp:87-102 | the walk never follows a link that is not there |
| RemoteFree.WalkEnds | src/page.cpp:87-102 | each of the owner's steps brings the end of the walk one step closer, and no client delays it |
| RemoteFree.FreeAlone | src/alloc.cpp:115-130 | left alone, a free by another client puts the block on top of the stack, the old top behind it |
| RemoteFree.FreeElsewhere | src/alloc.cpp:108-131 | whatever a client has written to a block, once handed on it can be freed by the client that got it |
| RemoteFree.PusherAdvances | src/alloc.cpp:121-130 | a client in a free always has a next step, and each brings the push closer |
| RemoteFree.OwnerAdvances | src/page.cpp:62-102 | so has the owner as long as anything is on the stack or in its hand |
| RemoteFree.OwnerFinishes | src/page.cpp:62-102 | left alone, it brings every block from the stack to a local list, and moves no other |
| RemoteFree.ListedComesBack | src/page.cpp:38-49 | the head of a local list can be handed out again, to any client |
| PageQueue.Prepended | src/page_queue.cpp:4-37 | the links after a push spell out the page followed by the old list, both ways |
| PageQueue.Spliced | src/page_queue.cpp:39-77 | the links after a removal spell out the list without the page, both ways |
| PageQueue.LastSpliced | src/page_queue.cpp:59-64 | `last` is right after a removal |
| PageQueue.LinkedFrame | src/page_queue.cpp:4-77 | a queue is not affected by changes to other pages |
| PageQueue.Queue.Push | src/page_queue.cpp:4-37 | push is prepend |
| PageQueue.Queue.Remove | src/page_queue.cpp:39-77 | remove is delete |
| Segments.Accounting | src/segment.cpp:29-35 | free pages plus `used` make 1023; `used` is 0 exactly when all pages of the segment are free |
| Segments.ClaimOk | src/segment.cpp:52-100 | claiming a segment without owner keeps the accounting; its pages were in nobody's books |
| Segments.TakePageOk | src/segment.cpp:29-35 | handing out a page keeps the accounting |
| Segments.PutPageOk | src/page.cpp:213-224 | taking it back keeps it, and `used` was positive |
| Segments.DropOk | src/segment.cpp:105-131 | giving back an unused segment keeps it, and all its pages are on free_page |
| Segments.NoSharedPage | src/segment.cpp:52-67 | two clients never have the same page |
| Segments.OthersKept | src/segment.cpp:52-67 | claiming and giving back leave the books of the other clients valid |
| Segments.Client.SegmentAlloc | src/segment.cpp:40-103 | exactly the first segment without owner is claimed, and its pages go on free_page in order; none only when all have owners |
| Segments.Client.PageAlloc | src/segment.cpp:4-36 | the first free page, or else the first page of the one segment then claimed; failure only when every segment has an owner |
| Segments.Client.SegmentFree | src/segment.cpp:105-132 | the loop removes exactly the segment's pages, all of which are on the queue |
| Segments.Client.MovePage | src/page.cpp:213-222 | the page leaves the queue of its size class for free_page, and the other queue stays intact |
| Segments.Client.PageFree | src/page.cpp:210-233 | the segment is given back exactly with its last page in use |
| Segments.Client.PageFresh | src/page.cpp:139-161 | the page goes on the queue of its size class; all other queues stay as they are, linked and disjoint, and every counted block lies on a queued page of an object class |
| Segments.Client.FreePage | src/page.cpp:210-233 | giving back a page without counted blocks, as `Allocator` shows it to be, keeps this, whether or not its segment goes with it |
| Segments.Client.Count | src/alloc.cpp:51-67 | counting an object in a block of its size class, as `Allocator` takes it, keeps every counted block on a queued page of an object class |
| Reclaim.Monitor.FindCounted | src/recovery.cpp:378-389 | the block walk finds a counted block if and only if the page has one |
| Reclaim.Monitor.SweepPage | src/recovery.cpp:374-411 | the count word of the first free block is cleared; then the page is wiped exactly when it has no counted block, otherwise its segment is marked |
| Reclaim.Monitor.SweepPages | src/recovery.cpp:368-415 | the nested loops do this for every queued page, once, and no page's sweep disturbs what another one sees |
| Reclaim.Monitor.FreeSegments | src/recovery.cpp:418-426 | exactly the client's segments that are not abandoned are given back |
| Reclaim.Monitor.CollectSegments | src/recovery.cpp:335-426 | the whole new state of owners, states, counts and headers: a segment is given back if and only if it was not abandoned, holds no queue of the client and no live block on a queued page; if all counted blocks of the client are on queued pages, every live one keeps its count, its page header and its segment |
| Reclaim.BooksSuffice | src/page.cpp:139-161 | what the allocator leaves at a crash, also in the middle of an allocation, meets all that the sweep needs: queued pages are in use and on one queue once, and every counted block of the client is a block of a queued page |
| Reclaim.Monitor.CollectDead | src/recovery.cpp:335-426 | so on what any client leaves, the collection keeps every live block: its count, its page header and its segment |
| SpscSteps.StepKeeps | src/transfer.cpp:9-74 | every access of either side, every crash, replay, root scan and sweep, and whatever other clients do to the counts keeps the queue's invariant |
| SpscSteps.VisitsDo | src/recovery.cpp:448-471 | the sweep of a stretch of slots, which skips a slot whose object has no count: each slot of it is null afterwards or its object has none, and the counts taken are those of the slots emptied |
| SpscTheorems.ReceivedIsPrefix | src/transfer.cpp:9-74 | received is a prefix of sent, in order, with at most 15 in flight, whoever has died |
| SpscTheorems.SlotsApart | src/transfer.cpp:26-70 | the two sides never write the same slot |
| SpscProgress.FullTest | src/transfer.cpp:16-19 | undisturbed, the two steps of the full test let the sender go on if and only if fewer than 15 objects are in flight, with both wrap-arounds |
| SpscProgress.OfferEnds | src/transfer.cpp:9-34 | under any interleaving an offer ends with exactly its object sent, or with a refusal, and then 15 objects were in flight at one of the two reads of the test |
| SpscProgress.SendAlone | src/transfer.cpp:9-34 | left alone, `sent_to` sends the object if fewer than 15 are in flight, and otherwise changes nothing |
| SpscProgress.ReceiveAlone | src/transfer.cpp:38-74 | left alone, `cxl_unwrap` moves the oldest object to a root of its own if there is one that no sweep has released, and otherwise only attaches |
| SpscProgress.SenderAdvances | src/transfer.cpp:9-34 | a sender at work always has a next step, and each brings the end closer |
| SpscProgress.ReceiverAdvances | src/transfer.cpp:38-74 | so has a receiver |
| SpscProgress.OtherRecordSaves | src/recovery.cpp:190-225 | once the sender has written any other record, a crash and replay put nothing back |
| SpscTheorems.LookFinds | src/transfer.cpp:55 | the receiver finds the oldest object in flight exactly when there is one that no sweep has released |
| SpscTheorems.BalanceExact | src/transfer.cpp:61-67 | in every reachable state the counts are those of the holders, non-null slots and half-done operations if and only if no slot is full with an object that nobody counts for it and no count was given back too often |
| SpscTheorems.LinksOnlyLive | src/transfer.cpp:26-60 | in every run, also after a wrong replay, sender and receiver link only objects with a count |
| SpscTheorems.BalancedBefore | src/transfer.cpp:61-67 | until the sender is recovered they always are |
| SpscTheorems.SenderReplayExact | src/recovery.cpp:198-225 | the sender's replay keeps the counts right if and only if its newest record is not a completed link whose slot has lost the object |
| SpscTheorems.StaleReplay | src/recovery.cpp:198-333 | a run in which it goes wrong: the object is received, put back by the replay, and the last count, that of the receiver's live root, given back by the sweep |
| SpscTheorems.HauntBegins | src/recovery.cpp:198-225 | over any run, a slot gets full with an uncounted object exactly at a replay of the sender's completed link that finds the slot without it |
| SpscTheorems.HauntedExact | src/recovery.cpp:198-364 | and it is so in a state of a run if and only if there was such a replay and since then neither a sweep that visits the slot while somebody holds the object, nor the receiver's replay of its unlink of that slot |
| SpscTheorems.OverBegins | src/recovery.cpp:448-471 | a count is given back too often exactly when a sweep visits that slot while somebody else still holds the object |
| SpscTheorems.ReceiverReplaySafe | src/recovery.cpp:226-252 | the receiver's replay never makes them wrong |
| SpscTheorems.SenderFirst | src/recovery.cpp:308-364 | both down, sender recovered first: the exact conditions, on the state at the crash, for a slot left full and for a count given back too often |
| SpscTheorems.ReceiverFirst | src/recovery.cpp:308-364 | the same with the receiver recovered first |
| SpscTheorems.EmptyInTheEnd | src/recovery.cpp:274-364 | in every run, once both sides are recovered, in whatever order and with whatever between: all slots are null if and only if none is full with an uncounted object, at most one is, and the counts are those of the other holders less what was given back too often |
| SpscTheorems.LeftFull | src/recovery.cpp:198-364 | a run in which it is not: the sender dies and is recovered while the receiver works on, and a slot stays full for ever |
| SpscTheorems.RecoveryExact | src/recovery.cpp:274-364 | from any crash of both sides, in either order: the ring ends empty if and only if not `StaysFull`, and the counts are those of the other holders if and only if not `GivenTwice` |
| QueueSweep.MessageQueue.SweepSender | src/recovery.cpp:309-333 | for every ring size the sweep visits exactly the slots outside the window, and all when no receiver is attached; each is null afterwards or its object has no count, and each slot emptied gives back one count |
| QueueSweep.MessageQueue.SweepReceiver | src/recovery.cpp:349-364 | the same for exactly the slots of the window |
| QueueSweep.MessageQueue.SweepBoth | src/recovery.cpp:308-364 | in either order, in the end each slot is null or its object has no count, each slot emptied was released once, and all are null if every object in the ring had a count for each of its slots |
| QueueSweep.MessageQueue.ScanRoots | src/recovery.cpp:274-306 | the root scan gives back one count for each root, as far as there are any |
| QueueSweep.MessageQueue.RedoSweepSender | src/recovery.cpp:198-333 | replay, root scan and sweep of the sender: the new ring and exactly what is given back |
| QueueSweep.MessageQueue.RedoSweepReceiver | src/recovery.cpp:226-364 | the same for the receiver, whose newest record may be that of a root |
| QueueSweep.MessageQueue.RecoverQueue | src/recovery.cpp:274-364 | the loops themselves, from any point of any run, in either order: the ring ends empty if and only if not `StaysFull`, and the counts are those of the other holders if and only if not `GivenTwice`, else exactly one is missing |
| QueueSweep.OrderMatters | src/recovery.cpp:556-570 | a reachable crash of both sides that comes right with the sender recovered first; with the receiver first it leaves the slot full, or gives a count back too often if another client holds the object |
| HashIndex.WalkFinds | src/hash_index.cpp:40-49 | following the pointer to the link slot visits the chain in order |
| HashIndex.WalkMisses | src/hash_index.cpp:8-17 | reaching the end of the chain means that the key is not in the map |
| HashIndex.AppendOk | src/hash_index.cpp:25-32 | linking a filled node at the end keeps chains acyclic, with distinct keys, in the right bucket |
| HashIndex.NewValueOk | src/hash_index.cpp:11-15 | overwriting a value changes the map at that key only |
| HashIndex.Index.Put | src/hash_index.cpp:4-33 | `put` is the update of the abstract map in the writer's partition |
| HashIndex.Index.Get | src/hash_index.cpp:35-51 | `get` is the lookup in the partition of the key's top byte, in both directions |
| HashIndex.GetSeesLastPut | src/hash_index.cpp:4-51 | after any sequence of puts the map has the last one of the key, or nothing when there was none |
| HashIndex.PutsThenGet | src/hash_index.cpp:4-51 | on the index itself: any sequence of `put`s and then `get` |
| HashIndex.BucketsApart | src/hash_index.cpp:7 | different buckets do not overlap, and a bucket lies before the segments if and only if its partition is one of the first 64 |
| HashIndex.FoundExactlyInOwnPartition | src/hash_index.cpp:35-39 | a new key is found exactly when its top byte is the writer's id minus 1 |
| HashReaders.StepKeeps | src/hash_index.cpp:4-51 | every word access of readers and writers keeps the index sound |
| HashReaders.GetIsAtomic | src/hash_index.cpp:35-51 | whichever step takes a client out of `get`, the answer is what the map said about its key at that step: none if and only if the key was not there |
| HashReaders.StaysInGet | src/hash_index.cpp:35-51 | until then it keeps its key |
| HashReaders.GetAlone | src/hash_index.cpp:35-51 | left alone, a `get` returns the map's answer and changes nothing |
| HashReaders.PutAlone | src/hash_index.cpp:4-33 | left alone, a `put` returns having set its entry and nothing else |
| HashReaders.ReaderAdvances | src/hash_index.cpp:40-50 | a client in `get` always has a next step, and each brings the answer closer as long as the chain does not grow |
| HashReaders.WriterAdvances | src/hash_index.cpp:8-32 | so has a client in `put`, whose chain nobody else lengthens |
| HashReaders.PutIsAtomic | src/hash_index.cpp:4-33 | the step in which a `put` returns sets its entry and nothing else, and no other step changes the map |
| HashReaders.StaysInPut | src/hash_index.cpp:4-33 | until that step the `put` keeps its key and value, so each `put` changes the map exactly once |
| HashReaders.NothingUninitialised | src/hash_index.cpp:25-49 | no walk meets a node that is not completely written |
| Addresses.RoundTrip | src/segment.cpp:134-139 | from any byte of a block one gets back to its own segment and page |
| Addresses.NoOverlap | include/cxlmalloc-internal.h:109-125 | blocks of different segment, page or index share no byte |
| Addresses.BinHolds | src/cxl_shm.cpp:301-315 | requests up to 1024 bytes, and no others, have a size class; its blocks are the smallest multiple of 16 that fits |
| Addresses.SameBinOnFree | src/cxl_shm.cpp:301-315 | for which requests the size class is found again on free |

## Left out

What the theorems assume:

- Memory is sequentially consistent; `clwb` and `sfence` do nothing here. A redo record and the
  clearing of the ring are single writes, and the monitor reads an object's word once, where the
  code reads it twice (src/recovery.cpp:201-202, src/recovery.cpp:229-230).
- A link writes an empty slot, and the client knows the object through another counted slot of its own,
  as the queue and the embedding of references do; a raw offset kept outside all slots gives no such slot.
- Client ids are 1 to 1023, and row 0 of the matrix, which the scan also reads
  (src/recovery.cpp:211), lies before it in memory that is zero.
- A client lives once: neither the reuse of a thread slot nor a segment passing to another client
  while the old owner's ring still names addresses in it. The monitor does not crash.
- EraTheorems.CrashConsistentCounting: runs do not contain harmful replays (see above), because the
  counts are wrong after them; `EraHazard.RedoExact` is the condition, in both directions.
- EraHistory.NoWriteIntervened: the client whose stamp was read must not be under recovery, since
  the monitor may reuse the era of the interrupted operation (src/recovery.cpp:484-494).
- EraRange.NothingOverflows: beyond 2^32 steps eras wrap and beyond 2^16 - 1 references counts do,
  which the code does not check.

What is modelled in a smaller form:

- Cascade.ObjectGraph.TestFree: one client at a time. `test_free` looks at the count and acts on it
  later, so concurrent releases of shared children are not covered. In the protocol a slot embedded in
  an object is unlinked by the client that owns it.
- EraRecovery.RecoveryCompletes: that the other clients do not keep the monitor from its end for ever
  is not shown: a swap can fail as often as somebody else changes the word.
- EraHazard.MiscountsLater: what a harmful replay does to the root of an unfinished allocation of a
  client that has crashed too is up to that client's own root scan.
- PageHeap.Heap.Carve: a page that is not in use has a zero header, as the wiping of pages and
  segments leaves it; the header of the last block and special pages are not wiped by the carving
  itself (src/page.cpp:189-203), so nothing is said of block contents.
- RemoteFree.ArrivesOnce: the `state` beside the stack is not there; it is NORMAL unless the monitor
  is at work on the segment.
- Segments.Client.PageAlloc: the claim is one swap without spurious failure.
- Reclaim.BooksSuffice: a crash falls between the calls of the allocator, or after an object's first
  count and before its block leaves the free list, not inside the link writes of a push or a removal.
- Reclaim.Monitor.CollectSegments: the dead client has been replayed. Message-queue pages and the
  second sweep over all segments (src/recovery.cpp:575-651) are not there.
- SpscTheorems.ReceivedIsPrefix: one receiver for the life of the queue, whose attaching is one step.
- SpscTheorems.EmptyInTheEnd: a replay is one step and so is a sweep, whose loops are in `QueueSweep`,
  so other clients act before or after a sweep but not inside it. A receiver that attaches between the
  test for `receiver_id` and the visits of the window (src/recovery.cpp:320-330) is not covered: it and
  the sweep may then unlink the same slot. That a record's swap took effect is known to the monitor, as
  `EraTheorems.RedoDecisionExact` shows.
- QueueSweep.MessageQueue.SweepSender: references inside an object that a sweep or a scan frees are not
  followed; in the protocol what becomes of them is a step of their own, and `Cascade` has the recursion.
- Allocator.Allocator.FreeBlock: one call at a time. Frees by other clients under interleaving are in
  `RemoteFree`. A page is queued before it is carved, where the code does it the other way round.
- HashIndex.Index.Put: clients 1 to 64 only (see above). The block comes from outside, and its count is
  not modelled: `put` stamps a node and links it in the same era, which the protocol's stamps do not
  cover (src/hash_index.cpp:26, src/hash_index.cpp:32).
- HashIndex.Index.Get: keys whose top byte is below 64, the partitions that fit before the segments.

What is not there:

- Mapping and attaching memory, network addresses and thread ids, timing and printing.
- The POTENTIAL_LEAKING state: the test that should set it reads the count out of a 16-bit value
  (src/recovery.cpp:253) and so never does.
- Roots and free-list links share their first word (`RootRef.pptr` and `cxl_block.next`); the protocol
  model keeps them apart.
- Copying, moving and assigning handles, and the count of handles on a root.
- `normal_garbage_collection`, which repeats the sweeps for a client that leaves in order.
- Running out of memory in `cxl_page_fresh`, which does not test for a null page.
- Attaching a new receiver to a queue whose receiver was recovered.
