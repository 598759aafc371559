# RT-Thread kernel and finsh, modelled and proved in Dafny

This project models the parts of the RT-Thread 3.0 kernel and of its finsh shell whose correctness
rests on more than one function at a time, and proves properties of the models.

- **Intrusive lists** (`RtList.dfy`): the circular doubly linked list of `rtservice.h` as link fields,
  related to the sequence of its nodes. Everything below that keeps threads, timers or heap items on
  such lists writes the same link fields.
- **Timers** (`TimerSpec.dfy`, `SkipList.dfy`, `TimerRegions.dfy`): the multi-level skip list ordered by 32-bit
  wraparound comparison is proved to take the steps of a first-come sorted list over unbounded time; every
  timer fires exactly at its deadlines. `TimerRegions` takes starting and stopping apart into their regions.
- **Threads and the scheduler** (`ReadyIndex.dfy`, `Threads.dfy`, `Regions.dfy`): ready queues with their
  one-word or two-level bitmap, suspend, resume, timeout, priority change, round robin. A log of how each
  wait begins and ends carries the exactly-once property. `Regions` takes the operations apart into their
  regions with interrupts off.
- **IPC** (`WaitList.dfy`, `Mutex.dfy`, `Event.dfy`, `Mailbox.dfy`, `MsgQueue.dfy`, `QueueWaits.dfy`): the mutex
  with priority inheritance and the event over the scheduler; the mailbox ring as a bounded queue
  without lost wakeups; the message queue whose copies happen between two critical sections, and its
  waiting receivers.
- **Allocators** (`MemHeap.dfy`, `SmallHeap.dfy`, `Pages.dfy`, `SlabZones.dfy`, `Slab.dfy`): the block and
  free rings of memheap, the offset chain of the small heap, the page runs and the zones of the slab
  allocator, with what live blocks contain.
- **finsh** (`FinshVm.dfy`, `FinshLang.dfy`, `FinshCells.dfy`, `FinshCorrect.dfy`, `FinshCompiler.dfy`,
  `FinshLimits.dfy`): the virtual machine and its byte code, an evaluator for shell expressions, what the code
  leaves in whole stack cells, and the compiler with its type check, correct down to the bytes; where the
  compiled code is wrong, the exact condition.

Regions with interrupts off are atomic steps. `rt_thread_resume`, `rt_thread_suspend`, `rt_thread_delete`,
`rt_timer_start` and `rt_timer_stop` are not one such region: they test or write outside of them, or work in
several. In the classes `Scheduler` and `TimerList`, and in all that builds on them, each is one step, which is
how they run when `ipc.c`, the timer and timeout functions call them with interrupts off; `Regions` and
`TimerRegions` are the models of calls with interrupts on. What the code changes in place is a class with the
same fields; each method is proved against a function or a value of the state before it, and what the code
promises is proved of these.

Where the code and what its comments or callers expect of it disagree, the model follows the code:

- The comment above the chunk offset in `slab.c` (lines 596-598 and 643-645) promises power-of-two
  alignment for power-of-two sizes. Zones start on page boundaries only, so for sizes above a page this
  depends on where the zone lies; `ZoneClasses.AlignedIff` gives the exact condition.
- `rt_thread_resume` may run with interrupts on, as `rt_thread_startup` calls it. A tick between its test and its
  first region leaves a thread ready on no list and its bit set over an empty queue (`Regions.TickInResume`);
  two overlapping resumes link the thread twice and end its wait twice (`Regions.TwoResumes`).
  `Regions.RunIff` gives the exact condition under which every state of a run is in order: each first region
  begins while the thread is still in the state that the call found it in, and nobody moves a thread that another call has
  in hand between its regions.
- `rt_thread_resume` on a thread that waits for a mutex or an event makes `rt_mutex_take` return success without
  the mutex and `rt_event_recv` bits that are not set; `MutexState.NoErrorIffOwner` and
  `EventState.NoErrorIffServed` say that this is the only way.
- `rt_timer_start` with interrupts on links its timer without taking it off again: a timeout function or another
  thread that starts the timer in between leaves it on the list twice (`TimerRegions.CallbackStarts`,
  `TimerRegions.TwoStarts`). `rt_timer_stop` clears the flag behind its region: a start in between leaves the timer
  linked without its flag, and it can no longer be stopped (`TimerRegions.StartInStop`). `TimerRegions.RunIff` gives
  the exact condition: the second region of a start finds the timer off the queue and its timeout ahead, the
  timeout it sets fits where the timer is, and a stop clears the flag of a timer that is off the queue.
- Evaluating a finsh expression is meant to push one cell. A binary operation whose first operand is a call leaves
  two or more, and a `void*` variable none; `FinshCorrect.OneCellIff` says of every other expression whether it
  pushes one.
- `~` and `*` on a call emit no instruction, so the line answers what the call returns
  (`FinshLimits.ComplementIff`, `FinshLimits.DereferenceIff`); `++` and `--` of a dereference change nothing
  (`FinshLimits.StepIff`).
- A `char` or `short` fills only the low bytes of its stack cell. A pointer, a callee, an argument, a second operand
  or an assigned value narrower than it is read brings along the bytes above it, of which only those of the
  first cell are cleared before a line. `FinshCells.Clean` says that they are 0 wherever they are read, and under
  that condition lines run as evaluated; `FinshLimits.PointerIff`, `StoreIff`, `CallIff`, `OperandIff` and
  `StoredIff` say of each such place that it is right if and only if they are, as in `1000; *c` for a `char` c
  it is not.
- `rt_realloc` of the small heap moves a block when it is asked for slightly less, so shrinking may fail
  (`SmallHeap.Heap.Realloc`), and cutting a block below `lfree` leaves `lfree` above it; the same contract says,
  by the blocks and `lfree` before the call, when `lfree` is still the lowest unused block.
- `rt_malloc` of the small heap passes over a last block that fits exactly (`HeapChain.OnlyLastExact`).

Verify with `dafny verify dfyconfig.toml`.

## Model

| member | source | states |
|---|---|---|
| `RtList.RingThreaded` | include/rtservice.h:62-84 | Threading a node in between two neighbours puts it at that place of the ring and leaves the order of all others. |
| `RtList.RingUnthreaded` | include/rtservice.h:90-96 | Removing a node takes exactly that one out of its ring and leaves it pointing at itself. |
| `RtList.IdleUnthreaded` | include/rtservice.h:90-96 | Removing a node that is on no list changes nothing, so removal is idempotent. |
| `RtList.EmptyRing` | include/rtservice.h:102-105 | The emptiness test reads true if and only if no node is on the ring. |
| `TimerSpec.RunConserves` | src/timer.c:488-546 | Over any run, what a timer has fired plus what it owes up to any later tick never changes while nobody touches it. |
| `TimerSpec.RunDeliversExactly` | src/timer.c:501-540 | An untouched started timer fires exactly at its deadline, a periodic one at every multiple without drift, across any number of counter wraps. |
| `TimerSpec.RunStaysSilent` | src/timer.c:488-546 | A timer that is not started does not fire. |
| `TimerSpec.RunDeliversInOrder` | src/timer.c:351-363 | Every firing is at its deadline; firings come by deadline, and for equal deadlines in the order the timers were started. |
| `TimerSpec.NextKeeps` | src/timer.c:294-546 | Starts, stops, control calls and ticks keep the queue sorted by deadline and start order, with nothing overdue between ticks. |
| `TimerSpec.CheckKeeps` | src/timer.c:501-540 | The check loop ends, with every due timer fired and nothing due left, whatever the callbacks start and stop. |
| `TimerSpec.InsertSorted` | src/timer.c:340-377 | Inserting behind all timers of no later deadline keeps the queue sorted and stable. |
| `TimerSpec.LateStartIff` | src/timer.c:306-392 | When ticks come between reading the tick and the second region, the queue is in order with nothing overdue afterwards if and only if the timer is off the queue and they are fewer than the ticks it waits. |
| `SkipList.LaterExact` | src/timer.c:356-363 | The 32-bit comparison of two deadlines less than half the counter range ahead is exact. |
| `SkipList.DueExact` | src/timer.c:510 | The 32-bit test for a due timer is exact for deadlines less than half the range ahead. |
| `SkipList.ScanUnique` | src/timer.c:342-364 | Only one place of a sorted queue has no later timer before it and no earlier or equal one behind it. |
| `SkipList.Search` | src/timer.c:339-367 | For every number of levels and every choice of towers, descending the rows stops in each row where a scan of that row alone stops. |
| `SkipList.LinkTimer` | src/timer.c:373-388 | The new timer is on the bottom row and on a random number of rows above it without a gap; every row is its old self or its old self with the timer at the scanned place. |
| `SkipList.RowsAreSubsequences` | src/timer.c:339-388 | Each row is a subsequence of the row below. |
| `SkipList.TimerList.RemoveTimer` | src/timer.c:123-131 | The timer is taken out of every row and nothing else moves. |
| `SkipList.TimerList.StartOff` | src/timer.c:307-312 | The first region of a start takes the timer off every row and clears its flag, as on the sorted queue. |
| `SkipList.TimerList.ReadTick` | src/timer.c:320-321 | Setting the timeout of a timer does so on the sorted queue, as long as that stays sorted. |
| `SkipList.TimerList.Queue` | src/timer.c:323-392 | The second region of a start, for a timer off the queue that is not overdue, inserts it as on the sorted queue. |
| `SkipList.TimerList.TakeOff` | src/timer.c:429-437 | The region of a stop takes the timer off every row, started or not. |
| `SkipList.TimerList.Deactivate` | src/timer.c:439-440 | Clearing the flag of a timer off the queue changes nothing else. |
| `SkipList.TimerList.Start` | src/timer.c:294-409 | rt_timer_start with interrupts off takes the step of the sorted queue over unbounded time. |
| `SkipList.TimerList.Stop` | src/timer.c:419-442 | rt_timer_stop with interrupts off takes the step of the sorted queue, and fails exactly for a timer that is not active. |
| `SkipList.TimerList.NextTimeout` | src/timer.c:110-121 | The tick of the front timer, which is the earliest deadline, or RT_TICK_MAX when none is started. |
| `SkipList.TimerList.Rearm` | src/timer.c:525-536 | After its callback a periodic timer that is still active is started again; any other becomes inactive. |
| `SkipList.TimerList.Check` | src/timer.c:488-546 | The check loop over link fields and 32-bit ticks fires what the unbounded model fires, in that order. |
| `SkipList.TimerList.TickIncrease` | src/clock.c:83-105 | A tick with its timer check takes the step of the unbounded model and leaves nothing due. |
| `SkipList.TimerList.Execute` | src/timer.c:294-546 | Any run of starts, stops, control calls and ticks with interrupts off refines the run of the unbounded model; for calls with interrupts on see TimerRegions.Execute. |
| `TimerRegions.ReadIff` | src/timer.c:320-321 | Setting the timeout keeps the queue in order if and only if the timer is off it or the timeout lies between those next to it. |
| `TimerRegions.QueueIff` | src/timer.c:323-392 | The second region of a start keeps the queue in order with nothing overdue if and only if the timer is off it and its timeout lies ahead. |
| `TimerRegions.ClearIff` | src/timer.c:439-440 | Clearing the flag behind a stop keeps it in order if and only if the timer is off the queue. |
| `TimerRegions.StepIff` | src/timer.c:294-546 | Each part of a start or stop, each whole operation and each tick with its timeout functions keeps order if and only if it is taken under its condition, read off the state before. |
| `TimerRegions.RunIff` | src/timer.c:294-546 | For every interleaving of parts, ticks and timeout functions: all its states are in order if and only if every part was taken under its condition. |
| `TimerRegions.StartInRow` | src/timer.c:294-409 | The parts of a start in a row are the one step of a start with interrupts off. |
| `TimerRegions.StopInRow` | src/timer.c:419-442 | The parts of a stop in a row are the one step of a stop with interrupts off. |
| `TimerRegions.CallbackStarts` | src/timer.c:312-392 | A tick whose timeout function starts the timer, between reading the tick and the second region, leaves it on the queue twice. |
| `TimerRegions.TwoStarts` | src/timer.c:294-409 | Two threads that start a timer at once leave it on the queue twice. |
| `TimerRegions.StartInStop` | src/timer.c:419-442 | A start behind the region of a stop leaves the timer on the queue without its flag, and stopping it is refused. |
| `TimerRegions.OverlapsFail` | src/timer.c:294-442 | All three overlaps lead out of order from one state with two timers. |
| `TimerRegions.Execute` | src/timer.c:294-546 | Any interleaving of parts under their conditions does on the skip list with 32-bit ticks what it does on the sorted queue. |
| `BoundedDeque.RunConserves` | src/ipc.c:1928-2282 | Over any interleaving, messages and threads that hold a block never exceed max_msgs, and everything linked is queued, taken or was dropped by a reset. |
| `BoundedDeque.RunIsFifo` | src/ipc.c:1967-1983 | Without urgent messages and resets, what receivers have taken is always a prefix of what senders have linked. |
| `MsgQueue.OneOwner` | src/ipc.c:1943-1983 | Each block is on the free list, on the queue or with one thread, and with one only. |
| `MsgQueue.ExclusiveBlock` | src/ipc.c:1962-1965 | The block a thread copies to or from outside the critical section is on no list and no other thread has it. |
| `MsgQueue.MessageQueue.constructor` | src/ipc.c:1742-1789 | All blocks that fit the pool are on the free list; message sizes are rounded up to words. |
| `MsgQueue.MessageQueue.SendBegin` | src/ipc.c:1937-1960 | A block is taken, or the call fails exactly for an oversized message or when no block is free. |
| `MsgQueue.MessageQueue.CopyIn` | src/ipc.c:1964-1965 | One byte of the copy into the own block, in any interleaving, changes nobody else. |
| `MsgQueue.MessageQueue.CopyOut` | src/ipc.c:2211-2212 | One byte of the copy out of the own block, up to the smaller of both sizes. |
| `MsgQueue.MessageQueue.LinkTail` | src/ipc.c:1967-1983 | The message becomes the last of the deque (waking a receiver: QueueWaits). |
| `MsgQueue.MessageQueue.LinkHead` | src/ipc.c:2053-2065 | An urgent message becomes the first of the deque (waking a receiver: QueueWaits). |
| `MsgQueue.MessageQueue.RecvBegin` | src/ipc.c:2196-2209 | The first message is taken off, or the queue is empty (waiting for one: QueueWaits). |
| `MsgQueue.MessageQueue.Finish` | src/ipc.c:2211-2220 | The receiver ends with the bytes of its message as they were sent, and the block is free again. |
| `MsgQueue.MessageQueue.Reset` | src/ipc.c:2245-2274 | A reset frees every queued block and leaves the blocks of copying threads to them (waking the receivers: QueueWaits). |
| `MsgQueue.MessageQueue.Execute` | src/ipc.c:1928-2282 | Every interleaving of the steps of any threads refines the deque. |
| `QueueWaits.BlockingQueue.constructor` | src/ipc.c:1742-1789 | Nobody waits on a new queue. |
| `QueueWaits.BlockingQueue.NoLostWakeup` | src/ipc.c:1967-2193 | Whenever receivers wait, at least as many woken ones are on their way as messages are queued; so with none on its way the queue is empty. |
| `QueueWaits.BlockingQueue.Link` | src/ipc.c:1967-1996 | Linking a message always succeeds and wakes the first waiting receiver, as a send to a mailbox that is not full. |
| `QueueWaits.BlockingQueue.Wait` | src/ipc.c:2127-2160 | A receiver that finds the queue empty joins the list at the place of its flag with its time left. |
| `QueueWaits.BlockingQueue.Receive` | src/ipc.c:2119-2209 | A receiver, entering or woken, waits if and only if the queue is empty and it has time left; it gets a timeout error if and only if the queue is empty and it has none; else it takes the first message. |
| `QueueWaits.BlockingQueue.Continue` | src/ipc.c:2162-2186 | A woken receiver returns its error, or tries again with the time that is left. |
| `QueueWaits.BlockingQueue.Expire` | src/thread.c:700-721 | A timeout takes the receiver off the list with an error. |
| `QueueWaits.BlockingQueue.Reset` | src/ipc.c:2238-2282 | A reset wakes all receivers with an error and empties the queue. |
| `HeapBlocks.LiveDisjoint` | src/memheap.c:190-277 | Allocated items lie inside the pool and do not overlap. |
| `HeapBlocks.MergedLeft` | src/memheap.c:541-558 | Merging into the unused item before keeps tiling, both rings and the size account. |
| `HeapBlocks.MergedRight` | src/memheap.c:560-579 | Merging the unused item behind keeps tiling, both rings and the size account, and leaves no unused neighbours. |
| `HeapBlocks.Carved` | src/memheap.c:436-456 | Cutting an item off a used one keeps tiling, the block ring and the account. |
| `MemHeap.Memheap.constructor` | src/memheap.c:60-131 | The pool is one unused item before a used tailer; the available size is the pool without two headers. |
| `MemHeap.Memheap.FirstFit` | src/memheap.c:175-190 | The first item of the free list that is large enough, or none is. |
| `MemHeap.Memheap.TakeFront` | src/memheap.c:195-242 | The front of a large item is handed out, the rest filed as a new unused item; no live byte changes. |
| `MemHeap.Memheap.TakeWhole` | src/memheap.c:243-262 | An item whose rest would be too small is handed out whole. |
| `MemHeap.Memheap.RecordUse` | src/memheap.c:241-242 | max_used_size is the high-water mark of pool size less available size over the whole run. |
| `MemHeap.Memheap.Alloc` | src/memheap.c:146-288 | Fails if and only if the rounded size is not below the available size or every unused item is too small; else hands out a new item of the rounded size or just above, and changes no other item or live byte. |
| `MemHeap.Memheap.Free` | src/memheap.c:499-596 | Exactly that item is given up; tiling, rings, no unused neighbours and the size account are kept. |
| `MemHeap.Memheap.GrowInPlace` | src/memheap.c:338-406 | The item grows over the header of its unused neighbour, whose rest is filed; no live byte changes. |
| `MemHeap.Memheap.ShrinkInPlace` | src/memheap.c:436-495 | The end is cut off, merged and filed; the first bytes stay. |
| `MemHeap.CopyBytes` | src/kservice.c:219-281 | The destination gets the bytes of the source and nothing else changes. |
| `MemHeap.Memheap.Move` | src/memheap.c:412-420 | A new item gets the old bytes, the old one is given up; failure changes nothing. |
| `MemHeap.Memheap.Realloc` | src/memheap.c:291-496 | Says when the item stays, moves or the call fails; the first bytes up to the smaller size are kept, other items and their bytes do not change, failure changes nothing. |
| `HeapChain.MarkedKeeps` | src/mem.c:315-340 | Marking a block used or unused changes used_mem by its extent and the live blocks by that one. |
| `HeapChain.CutKeeps` | src/mem.c:301-325 | Cutting an unused block off keeps the chain, its inverse except at the end of the heap, and used_mem. |
| `HeapChain.JoinedKeeps` | src/mem.c:146-173 | Joining two unused neighbours keeps the chain, its inverse and used_mem, and drops one unused block. |
| `HeapChain.FreedKeeps` | src/mem.c:549-563 | After a free no unused neighbours are left, lfree is an unused block, and it stays the lowest if it was. |
| `HeapChain.CutOffKeeps` | src/mem.c:437-456 | Cutting a used block keeps everything; lfree is the lowest unused block afterwards if and only if it was before, and before the cut it was not behind the part cut off or was the block right behind that part. |
| `HeapChain.OnlyLastExact` | src/mem.c:280-286 | The search passes over a large enough unused block from lfree on if and only if it is the last block and fits exactly. |
| `HeapChain.NoFitLowest` | src/mem.c:280-286 | While lfree is the lowest unused block, the search fails exactly when every unused block is too small, an exact last one aside. |
| `HeapChain.LiveDisjoint` | src/mem.c:247-376 | Allocated blocks lie inside the heap and do not overlap. |
| `SmallHeap.Heap.constructor` | src/mem.c:185-232 | One unused block before a used end block. |
| `SmallHeap.Heap.Search` | src/mem.c:280-286 | The loop ends, at the first block from lfree on that will do, or none does. |
| `SmallHeap.Heap.TakeBlock` | src/mem.c:288-355 | The block is taken whole or cut, no live byte changes, and max_mem follows used_mem. |
| `SmallHeap.Heap.AdvanceHint` | src/mem.c:346-353 | lfree moves to the next unused block or the end of the heap and passes over none. |
| `SmallHeap.Heap.Malloc` | src/mem.c:247-376 | Fails if and only if size is 0, too large, or no block from lfree on will do; else hands out the first that does, aligned, and changes no other block or live byte. |
| `SmallHeap.Heap.PlugHoles` | src/mem.c:137-175 | Joins with the next and then with the previous block, moving lfree along. |
| `SmallHeap.Heap.Free` | src/mem.c:511-565 | Exactly that block is given up; addresses outside the heap are ignored. |
| `SmallHeap.Heap.CutOff` | src/mem.c:437-460 | The block shrinks in place, its first bytes and all other live bytes stay; by the state before it says when lfree stays the lowest unused block. |
| `SmallHeap.Heap.Realloc` | src/mem.c:387-473 | Says when the block stays, moves or the call fails; the first bytes up to the smaller size are kept, other blocks and their bytes do not change, failure changes nothing; by the state before it says when lfree stays the lowest unused block. |
| `PageRuns.Unique` | src/slab.c:246-332 | A list of maximal disjoint runs is determined by its set of free pages. |
| `PageRuns.AllocTakes` | src/slab.c:246-280 | Allocation removes exactly the pages it returns, all of which were free. |
| `PageRuns.AllocComplete` | src/slab.c:246-280 | Allocation succeeds whenever enough consecutive pages are free. |
| `PageRuns.ReleaseKeeps` | src/slab.c:282-332 | Releasing pages that are not free keeps the runs sorted, disjoint and maximal. |
| `PageRuns.ReleaseAdds` | src/slab.c:282-332 | Releasing adds exactly the named pages. |
| `PageRuns.AllocThenRelease` | src/slab.c:246-332 | Releasing what was just allocated restores the identical list. |
| `PageRuns.ReleasesCommute` | src/slab.c:282-332 | The order of two releases does not matter. |
| `PageRuns.AllocTotal` | src/slab.c:246-280 | Allocation takes just its number of pages from the total. |
| `PageRuns.ReleaseTotal` | src/slab.c:282-332 | Release adds just its number of pages to the total. |
| `PageAlloc.PageList.Alloc` | src/slab.c:246-280 | The walk over the linked page heads takes the step of the run list; 0 pages or no run gives null. |
| `PageAlloc.PageList.Free` | src/slab.c:282-332 | The walk joins the pages with the run before, the run behind or both, as the run list does. |
| `ZoneClasses.ZoneIndexFits` | src/slab.c:411-469 | A request goes to the smallest class whose chunks hold it, and is rounded to the chunk size of that class. |
| `ZoneClasses.ChunkSizeGrows` | src/slab.c:411-469 | Chunk sizes rise strictly with the class. |
| `ZoneClasses.ChunksFit` | src/slab.c:640-655 | All chunks of a zone lie behind its header and inside it, two at least. |
| `ZoneClasses.AlignedIff` | src/slab.c:643-655 | A chunk of a power-of-two size is aligned to its size if and only if its zone is. |
| `SlabState.NoneHeldIff` | src/slab.c:885 | The free count equals the chunk count if and only if no chunk of the zone is in use. |
| `SlabState.TakeFresh` | src/slab.c:571-576 | The next chunk of the untouched tail is not in use, and the counts stay right. |
| `SlabState.TakeListed` | src/slab.c:577-583 | The first chunk of the free list is not in use, and the counts stay right. |
| `SlabState.GiveBack` | src/slab.c:858-882 | A chunk given back is on the free list once, and the counts stay right. |
| `SlabState.HeldDisjoint` | src/slab.c:488-684 | No two live blocks overlap, chunks or pages, so no live chunk is handed out again. |
| `SlabState.UsageLeadsBack` | src/slab.c:814-860 | The page entry of every live block leads to its zone or tells its number of pages. |
| `SlabState.UsedWith` | src/slab.c:585-586 | The sum of live sizes grows by the size of the block taken. |
| `Slab.FindZoneSize` | src/slab.c:385-387 | The zone size the start-up loop arrives at. |
| `Slab.SlabHeap.constructor` | src/slab.c:354-405 | All pages but those of the usage table are free; nothing is in use. |
| `Slab.SlabHeap.MallocLarge` | src/slab.c:507-536 | A large block of whole pages, or null if and only if no run is long enough. |
| `Slab.SlabHeap.MallocFromZone` | src/slab.c:554-592 | A chunk of the first zone of the class that was not in use; a zone that runs empty leaves its list. |
| `Slab.SlabHeap.MallocNewZone` | src/slab.c:594-678 | A zone at rest is used again or a new one is made of pages; null if and only if neither is to be had. |
| `Slab.SlabHeap.Malloc` | src/slab.c:488-684 | Null if and only if size is 0 or pages are needed and there are none; else a block of at least that size that was not in use, with nothing else changed and used_mem the sum of live sizes. |
| `Slab.SlabHeap.FreeChunk` | src/slab.c:853-933 | The chunk is given up; its zone is listed again or goes to rest, and at most two zones are at rest afterwards. |
| `Slab.SlabHeap.ReleaseZone` | src/slab.c:907-930 | The third zone at rest gives its pages back, leaving two. |
| `Slab.SlabHeap.Free` | src/slab.c:793-935 | Exactly that block is given up, and used_mem falls by its size. |
| `FinshOps.Splice` | components/finsh/finsh_ops.c:32-46 | Writing a part of a cell sets just its low bytes. |
| `FinshOps.LoadStore` | components/finsh/finsh_ops.c:404-435 | What is stored in memory at some width is what is read there, and no other byte changes. |
| `FinshOps.LoadWhole` | components/finsh/finsh_ops.c:327-402 | The low part of a long read is the short read at the same address. |
| `FinshVm.FetchEncoded` | components/finsh/finsh_vm.c:57-71 | Fetching from the bytes of an instruction gives that instruction and its length. |
| `FinshVm.ExecEncoded` | components/finsh/finsh_vm.c:57-71 | Running the bytes of a code does what its instructions do one after the other and arrives behind them. |
| `FinshVm.ExecZeros` | components/finsh/finsh_vm.c:57-71 | Zero bytes up to the end of the text segment do nothing. |
| `FinshVm.DoAppend` | components/finsh/finsh_vm.c:57-71 | Codes in a row are run in a row. |
| `FinshVm.Vm.OpBin` | components/finsh/finsh_ops.c:32-46 | The binary operations on the stack array at each width. |
| `FinshVm.Vm.OpLd` | components/finsh/finsh_ops.c:297-325 | Loading a constant writes its part of the next cell. |
| `FinshVm.Vm.OpLdValueStack` | components/finsh/finsh_ops.c:341-402 | Loading through the address on top of the stack. |
| `FinshVm.Vm.OpSt` | components/finsh/finsh_ops.c:404-435 | Storing through an address on the stack. |
| `FinshVm.Vm.OpCall` | components/finsh/finsh_ops.c:444-569 | A call takes its arguments and the function off the stack and pushes one cell. |
| `FinshVm.Vm.Run` | components/finsh/finsh_vm.c:47-72 | The fetch loop ends at the end of the text segment with what running the bytes gives. |
| `FinshLang.WideEnough` | components/finsh/finsh_compiler.c:759-901 | The value of an expression is at least as wide as its type. |
| `FinshLang.EvalFits` | components/finsh/finsh_compiler.c:43-757 | A value is in the range of its width. |
| `FinshTree.AnnotatedType` | components/finsh/finsh_compiler.c:759-901 | The type check gives every node the type of its expression. |
| `FinshCells.CellShows` | components/finsh/finsh_compiler.c:43-757 | Whatever the cell held before, the low part of the cell of an expression is its value. |
| `FinshCells.LeaveLands` | components/finsh/finsh_compiler.c:43-757 | Where no cell is read with stale bytes above its value, an expression leaves exactly its cell, with upper bytes as told, the stack below as it was and the memory of its evaluation. |
| `FinshCorrect.CodeLeaves` | components/finsh/finsh_compiler.c:43-757 | The code of a fair expression, run anywhere, does what its operations say in order. |
| `FinshCorrect.FineIsClean` | components/finsh/finsh_compiler.c:43-757 | Expressions that read no value wider than it is are clean on every stack. |
| `FinshCorrect.Compiled` | components/finsh/finsh_compiler.c:43-757 | The code of an expression that is clean on the stack before it changes variables as the evaluator does, pushes its value in one cell and touches no cell below; for types on what ~ and * apply to, and ++ and -- on variables. |
| `FinshCorrect.CompiledArgs` | components/finsh/finsh_compiler.c:43-757 | The code of a clean argument list pushes the values of the arguments in order. |
| `FinshCorrect.CompiledList` | components/finsh/finsh_compiler.c:903-937 | The code of a clean list of statements runs them in order, drops each value but the last and keeps that one. |
| `FinshCorrect.RunsAsEvaluated` | components/finsh/finsh_compiler.c:903-937 | Running the bytes of a clean list of statements changes variables as the evaluator does and leaves the last value in the first stack cell. |
| `FinshCorrect.OneCellIff` | components/finsh/finsh_compiler.c:43-757 | An expression without void pointer variables pushes at least one cell, and exactly one if and only if each binary operator in it has a first operand with a type and each assignment a variable or typed dereference on the left. |
| `FinshCorrect.CallFirstLeavesTwo` | components/finsh/finsh_compiler.c:43-757 | A binary operation with a call as its first operand leaves two cells or more. |
| `FinshCorrect.VoidPointerHasNoCode` | components/finsh/finsh_compiler.c:43-757 | A void pointer variable compiles to nothing. |
| `FinshLimits.SilentIff` | components/finsh/finsh_compiler.c:43-757 | A node emits no instruction of its own if and only if the type it works at is void, its target is of the wrong kind, or only an address is wanted. |
| `FinshLimits.ComplementIff` | components/finsh/finsh_compiler.c:266-270 | The code of ~e for a clean e pushes one cell, and it is the complement if and only if e has a type; else it is the value of e. |
| `FinshLimits.ComplementOfCall` | components/finsh/finsh_compiler.c:266-270 | ~f() is such a case: its code is that of f(), and the cell is never the complement. |
| `FinshLimits.DereferenceIff` | components/finsh/finsh_compiler.c:718-740 | The code of *e for a clean e that fills its cell pushes one cell, and it is what e points to if and only if e has a type or points to its own value; else it is the value of e. |
| `FinshLimits.StepIff` | components/finsh/finsh_compiler.c:373-756 | ++ and -- change their target if and only if it is a variable; on a dereference they change nothing. |
| `FinshLimits.PointerIff` | components/finsh/finsh_compiler.c:718-740 | *e for a typed e of any width loads through its whole cell: what e points to if and only if the bytes above e are 0 or the other place holds the same. |
| `FinshLimits.StarOfVariable` | components/finsh/finsh_compiler.c:718-740 | *v for a variable: the bytes above are those that the stack cell held before. |
| `FinshLimits.StoreIff` | components/finsh/finsh_compiler.c:310-372 | *e = x for a typed e of any width makes the memory of the assignment if and only if the bytes above e are 0 or both places hold the value already. |
| `FinshLimits.OperandIff` | components/finsh/finsh_compiler.c:218-285 | An operator works on what it sees of its second operand's cell; a sum or difference is right if and only if that is the operand. |
| `FinshLimits.StoredIff` | components/finsh/finsh_compiler.c:310-372 | An assignment stores what it sees of the value's cell, and the memory is right if and only if that is the value. |
| `FinshLimits.CallIff` | components/finsh/finsh_compiler.c:285-308 | A call is made with the whole cells of callee and arguments; these are callee and arguments if and only if the bytes above each are 0. |
| `FinshLimits.CallOfLeaves` | components/finsh/finsh_compiler.c:285-308 | f(a, ..., z) of variables and constants gets its arguments if and only if the stack before the call holds nothing above the width of each in its cell. |
| `FinshCompiler.Compiler.TypeCheck` | components/finsh/finsh_compiler.c:759-901 | The recursive walk writes the types of the annotated tree to the nodes and touches no other node. |
| `FinshCompiler.Compiler.CodeInstr` | components/finsh/finsh_compiler.c:43-757 | The bytes of an instruction are written behind the code so far. |
| `FinshCompiler.Compiler.CompileNode` | components/finsh/finsh_compiler.c:43-757 | The code of a node is written by its kind. |
| `FinshCompiler.Compiler.Compile` | components/finsh/finsh_compiler.c:43-757 | The recursive walk writes the code of children, siblings and node in evaluation order. |
| `FinshCompiler.Compiler.CompilerRun` | components/finsh/finsh_compiler.c:903-937 | The text segment holds the code of all statements and zeros behind it. |
| `FinshCompiler.RunLine` | components/finsh/shell.c:305-347 | Compiling and running a line that is clean on the stack with its first cell cleared changes variables as the evaluator does, and the answer is the value of its last statement. |
| `WaitList.PlaceIs` | src/ipc.c:104-130 | The place by priority is behind everyone at least as urgent and before everyone less urgent. |
| `WaitList.JoiningSorted` | src/ipc.c:104-130 | Joining by priority keeps the list sorted, behind all of equal priority. |
| `WaitList.FindPlace` | src/ipc.c:104-130 | The search loop finds that place. |
| `MailSpec.StepKeeps` | src/ipc.c:1408-1719 | Every critical section, timeout and reset keeps the bound, the wait lists and the no-lost-wakeup counts. |
| `MailSpec.ReceivedIsPrefix` | src/ipc.c:1408-1678 | After any run the mail received is a prefix of the mail sent, the rest being in the box. |
| `MailSpec.NoLostWakeup` | src/ipc.c:1408-1678 | After any run, if receivers wait and none is woken the box is empty; if senders wait and none is woken it is full. |
| `Mailbox.SlotIsMod` | src/ipc.c:1501-1507 | The ring offsets are taken modulo the size. |
| `Mailbox.RingPut` | src/ipc.c:1501-1507 | Storing at the in offset appends to the mail. |
| `Mailbox.RingTake` | src/ipc.c:1648-1655 | Reading at the out offset takes the oldest mail. |
| `Mailbox.Mailbox.Send` | src/ipc.c:1408-1526 | rt_mb_send_wait takes the step of the bounded queue: full, waiting, or stored with the first receiver woken. |
| `Mailbox.Mailbox.Receive` | src/ipc.c:1555-1678 | rt_mb_recv takes the step of the bounded queue: empty, waiting, or taken with the first sender woken. |
| `Mailbox.Mailbox.Continue` | src/ipc.c:1481-1492 | A thread that wakes returns its error or tries again with the time that is left. |
| `Mailbox.Mailbox.Expire` | src/thread.c:700-721 | A timeout takes the waiter off its list with an error. |
| `Mailbox.Mailbox.Reset` | src/ipc.c:1690-1719 | A reset wakes everybody with an error and empties the ring. |
| `Mailbox.Mailbox.Execute` | src/ipc.c:1408-1719 | Every interleaving of calls, wakeups, timeouts and resets refines the bounded queue. |
| `Words.EntryIsLowest` | src/kservice.c:1237-1256 | Every entry of the 256-entry table is the lowest bit of its index. |
| `Words.FfsIsLowest` | src/kservice.c:1268-1282 | __rt_ffs gives the lowest bit of a word plus 1, and 0 for 0. |
| `ReadyIndex.InsertMarks` | src/scheduler.c:280-304 | Inserting marks just that priority, in one word or in two levels. |
| `ReadyIndex.ClearUnmarks` | src/scheduler.c:326-352 | Removing unmarks just that priority, in one word or in two levels. |
| `ReadyIndex.EmptyIff` | src/scheduler.c:202-214 | The group word is 0 if and only if no priority is marked. |
| `ReadyIndex.HighestIsLeast` | src/scheduler.c:202-220 | The priority found through the bitmap is marked and the least marked one. |
| `KernelState.WaitEndsOnce` | src/thread.c:616-721 | In a log in which begins and ends of each thread alternate, every wait but the last has ended once before the next begins: by being resumed, flushed, timed out or with the thread. The logs of reachable states alternate: Scheduler with interrupts off, Regions.InOrder and RunIff between regions. |
| `KernelState.WhereThreadsAre` | src/scheduler.c:268-354 | Where every operation is one step: a thread is ready if and only if it is on the queue of its priority, is on one list at most, and has its timer started only while suspended. Between regions: Regions.InOrder. |
| `KernelState.SomeReady` | src/scheduler.c:202-214 | The bitmap is not 0 if and only if some thread is ready. |
| `KernelState.Choice` | src/scheduler.c:192-225 | The head of the queue found through the bitmap is ready and no ready thread outranks it. |
| `Threads.Scheduler.constructor` | src/scheduler.c:121-148 | Empty ready queues and bitmap; every thread initialised and on no list. |
| `Threads.Scheduler.InsertThread` | src/scheduler.c:268-305 | The thread is ready, last in its queue, and its priority is marked. |
| `Threads.Scheduler.RemoveThread` | src/scheduler.c:314-354 | The thread is off its queue, and the mark follows when the queue runs empty. |
| `Threads.Scheduler.Suspend` | src/thread.c:616-648 | rt_thread_suspend with interrupts off: a ready thread leaves its queue and its timer stops; any other is refused. |
| `Threads.Scheduler.Resume` | src/thread.c:658-691 | rt_thread_resume with interrupts off: a suspended thread leaves its list, its timer stops, and it is ready; any other is refused. |
| `Threads.Scheduler.SuspendNow` | src/thread.c:630-641 | The region of rt_thread_suspend: a thread that is not suspended is off every list and suspended, its timer stopped. |
| `Threads.Scheduler.ResumeTake` | src/thread.c:673-683 | The first region of rt_thread_resume, from any state: the thread is unlinked from whatever list it is on and its timer stopped, nothing else. The second is InsertThread. |
| `Threads.Scheduler.Timeout` | src/thread.c:700-721 | A thread whose timer expires was suspended, and becomes ready with a timeout error. |
| `Threads.Scheduler.Wait` | src/ipc.c:92-135 | A thread that blocks is suspended on the wait list at the place of its flag, with its error code reset and its timer running for a positive timeout. |
| `Threads.Scheduler.FindWaiter` | src/ipc.c:92-135 | The walk over the list finds the thread in front of which to insert. |
| `Threads.Scheduler.ResumeFirst` | src/ipc.c:146-159 | The first waiter becomes ready with its error code as it is. |
| `Threads.Scheduler.ResumeAll` | src/ipc.c:169-197 | All waiters become ready in order, each with an error. |
| `Threads.Scheduler.Sleep` | src/thread.c:483-511 | A sleeping thread is suspended on no list with its timer running. |
| `Threads.Scheduler.Awake` | src/thread.c:506-508 | After a sleep a timeout error is reset, any other error stays. |
| `Threads.Scheduler.ChangePriority` | src/thread.c:547-588 | A ready thread goes to the end of the queue of its new priority, any other only takes it. |
| `Threads.Scheduler.Startup` | src/thread.c:259-290 | An initialised thread becomes ready at its initial priority. |
| `Threads.Scheduler.Close` | src/thread.c:95-130 | rt_thread_exit: the thread leaves its list and its timer stops; it goes to the defunct list, or to none when it is a static thread without cleanup; a wait it was in ends with it. Deletion region by region: Regions. |
| `Threads.Scheduler.Yield` | src/thread.c:439-473 | The current thread goes to the end of its queue, unless it is alone there. |
| `Threads.Scheduler.Schedule` | src/scheduler.c:192-259 | Unlocked with some thread ready, the current thread is the first of the most urgent queue; locked, nothing changes. |
| `Threads.Scheduler.TickIncrease` | src/clock.c:83-105 | A tick of the running thread takes the round-robin step. |
| `Threads.Scheduler.TickRepeatedly` | src/clock.c:83-105 | Any number of ticks in a row, while nothing else happens, runs the threads of the most urgent priority as the round-robin function says, with the first of their queue current. |
| `Threads.Scheduler.ExitCritical` | src/scheduler.c:380-402 | The nesting counts down to 0, where scheduling happens. |
| `RoundRobin.WithinSlice` | src/clock.c:90-101 | The running thread keeps the processor for its whole slice. |
| `RoundRobin.RunsInTurn` | src/clock.c:90-101 | Threads of one priority run in queue order, each for exactly its slice, from anywhere in the slice of the running one. |
| `RoundRobin.Recurs` | src/clock.c:90-101 | After the sum of all slices everything is as it was, from anywhere in the slice of the running thread. |
| `RegionOps.UnlinkedIff` | src/thread.c:673-683 | The first region of rt_thread_resume keeps lists, bitmap and waits in order if and only if the thread is not ready. |
| `RegionOps.PutIff` | src/scheduler.c:268-305 | The second region keeps them in order if and only if the thread is suspended on no list with its timer stopped. |
| `RegionOps.ResumedIff` | src/thread.c:673-686 | Both regions in a row keep them in order if and only if the thread is suspended; then they are the one step that wakes it. |
| `RegionOps.SuspendingIff` | src/thread.c:630-641 | The region of rt_thread_suspend keeps them in order if and only if the thread is not suspended already. |
| `Regions.TakeIff` | src/thread.c:664-683 | The first region of a resume keeps a state between regions in order if and only if the thread is still suspended and nobody else has it in hand. |
| `Regions.DoSuspendIff` | src/thread.c:621-641 | The region of a suspend does so if and only if the thread is still ready. |
| `Regions.DeleteIff` | src/thread.c:399-428 | Beginning to delete a thread does so if and only if it is not closed and nobody else has it in hand. |
| `Regions.ExpireIff` | src/thread.c:700-721 | The timeout of a thread does so if and only if nobody has it in hand. |
| `Regions.SetPrioIff` | src/thread.c:547-588 | Changing the priority of a thread that is ready does so if and only if nobody has it in hand. |
| `Regions.BlockIff` | src/ipc.c:92-135 | A ready thread that blocks on an object does so if and only if nobody has it in hand. |
| `Regions.StepIff` | src/thread.c:399-721 | Each region and operation keeps the threads in order if and only if it begins under its condition, which is read off the state before it. |
| `Regions.RunIff` | src/thread.c:399-721 | For every interleaving of regions: all its states are in order if and only if every region began under its condition. |
| `Regions.InOrder` | src/thread.c:399-721 | In order means, between any regions: waits have ended once, a thread is on one list at most, on its ready queue if and only if it is ready and not being deleted, with its timer running only while suspended, and the bitmap marks just the queues with threads. |
| `Regions.AtomicIsRegions` | src/thread.c:658-691 | Test and both regions of a resume in a row are the one step of a resume with interrupts off. |
| `Regions.TickInResume` | src/thread.c:664-683 | A timeout between the test and the first region leaves the thread ready on no list and its bit set over an empty queue, whose first node is the list head. |
| `Regions.TwoResumes` | src/thread.c:658-691 | Two overlapping resumes end one wait twice and put the thread on its queue twice. |
| `Regions.OverlapsFail` | src/thread.c:658-691 | Both overlaps lead out of order from the state with one thread asleep. |
| `MutexState.OwnerOutranks` | src/ipc.c:668-719 | In every reachable state of a mutex by priority, a waiter waits for an owner at least as urgent, which is no less urgent than by itself. |
| `MutexState.NoErrorIffOwner` | src/ipc.c:741-752 | A thread inside the call that does not wait has no error for the owner only if and only if nobody else has resumed it; resumed so, it has no error and not the mutex. |
| `MutexState.PulledKeeps` | src/thread.c:658-691 | rt_thread_resume on a waiter takes it off the list without an error while another thread stays the owner; all else is kept. |
| `MutexState.HandKeeps` | src/ipc.c:822-841 | Handing over to the first waiter keeps everything, so the new owner outranks the others at once. |
| `MutexState.TimeoutKeeps` | src/thread.c:700-721 | A waiter that times out leaves the mutex consistent. |
| `MutexState.ElsewhereKeeps` | src/ipc.c:642-861 | Activity that leaves the list, the priorities and the error codes of threads inside the call keeps the mutex. |
| `Mutexes.Mutex.constructor` | src/ipc.c:525-544 | Free, with value 1, no owner and hold 0. |
| `Mutexes.Mutex.Take` | src/ipc.c:642-762 | Taken at once if and only if free or held by the caller; else fails for no waiting time, or waits with the owner boosted to the more urgent of both priorities. |
| `Mutexes.Mutex.Continue` | src/ipc.c:741-752 | A blocked taker returns success for the owner only if and only if nobody else has resumed it; resumed so, it returns success without the mutex. |
| `Mutexes.Mutex.Pull` | src/thread.c:658-691 | A waiter resumed by somebody who does not release the mutex leaves the list, without an error and without the mutex. |
| `Mutexes.Mutex.Release` | src/ipc.c:773-861 | Only the owner releases; the last release restores the priority it came with and makes the first waiter the owner, or frees the mutex. |
| `Mutexes.Mutex.Expire` | src/thread.c:700-721 | A waiter that times out leaves the list. |
| `EventState.MatchesMeans` | src/ipc.c:1032-1052 | The AND condition is that no wanted bit is missing, the OR condition that some is there. |
| `EventState.ServedGets` | src/ipc.c:1046-1062 | A served receiver gets the wanted bits that were there, and exactly these are taken out if it asked for that. |
| `EventState.ClearAsked` | src/ipc.c:1143-1149 | Taking out all bits asked for is taking out those received. |
| `EventState.SweepSettles` | src/ipc.c:1020-1068 | However the event shrinks in the loop, afterwards no remaining waiter has its condition fulfilled. |
| `EventState.SweepAccounts` | src/ipc.c:1020-1068 | Each thread resumed had its condition fulfilled at its turn; the event has lost exactly what they took, and no bit was taken twice. |
| `EventState.NoErrorIffServed` | src/ipc.c:1183-1194 | A thread that comes back without an error was served if and only if nobody else has resumed it. |
| `EventState.PulledKeeps` | src/thread.c:658-691 | rt_thread_resume on a waiter takes it off the list without an error though its condition does not hold; all else is kept. |
| `Events.EventObject.Send` | src/ipc.c:1000-1079 | In every reachable state no waiter has its condition fulfilled; a send serves waiters in list order, each resumed once, the rest staying. |
| `Events.EventObject.SweepWaiters` | src/ipc.c:1022-1068 | The walk over the list, which loses nodes on the way, is the sweep of the specification. |
| `Events.EventObject.Recv` | src/ipc.c:1095-1180 | Bits at once if and only if the condition holds; else a timeout error for no waiting time, or waiting. |
| `Events.EventObject.Continue` | src/ipc.c:1183-1202 | A thread that waited returns its error, or the bits it was served with if and only if nobody else has resumed it; resumed so, it returns all it asked for. |
| `Events.EventObject.Expire` | src/thread.c:700-721 | A waiter that times out leaves the list. |
| `Events.EventObject.Pull` | src/thread.c:658-691 | A waiter resumed by somebody who does not send leaves the list without an error and without its condition holding. |
| `Events.EventObject.Reset` | src/ipc.c:1215-1240 | Everybody is woken with an error and the event is 0. |

## Left out

- Board support, context switches, interrupt masking, drivers, the module loader, device and object tables,
  hooks, debug output and object naming.
- Semaphores and memory pools: the first take the same wait list as the mutex without its ownership, the second
  lose count of their waiters on a timeout.
- Soft timers, `rt_tick_set`, timers with init_tick 0 and timers restarted in their own callback.
- SkipList.TimerList.Start: one step, as with interrupts off; the same holds for `Stop` and `Execute`. With interrupts
  on see `TimerRegions`, which leaves out `rt_timer_delete` and `rt_timer_detach`.
- QueueWaits.BlockingQueue.Receive: the waiting threads are a list and the state of each, as in the mailbox, and not
  the threads of `Scheduler`. `Execute`, over interleavings, is there for `Mailbox` and `MessageQueue` only.
- Mailbox.Mailbox.Send: thread priorities are fixed while threads wait, and threads are not deleted inside a call.
  A waiter that somebody else resumes tries again; that step is not there, nor in `QueueWaits`.
- Mutexes.Mutex.Take: the claims about priorities are for one mutex by priority, with threads holding only it
  and no other change of priority; a first-come mutex and overlapping ones are not boosted again by the code.
  The 8-bit hold count stays below 255 by precondition.
- Mutexes.Mutex.Expire: the owner keeps the priority a waiter gave it when that waiter times out, as in the code.
- Threads.Scheduler.Wait: started thread timers are a set here; their list is `SkipList.TimerList`.
- Threads.Scheduler.Resume: one step, as with interrupts off; the same holds for the suspends in `Wait` and `Sleep`.
  With interrupts on see `Regions`.
- Threads.Scheduler.Suspend: one step, as with interrupts off; see `Regions` and `SuspendNow`.
- Threads.Scheduler.Close: a thread that a kernel object still counts as inside a call is not deleted. Deletion with
  interrupts on is `Regions`, where kernel objects are wait lists without their own fields.
- Regions.RunIff: threads are closed by an exit to the defunct list or by `rt_thread_delete`; `rt_thread_detach`, with the
  same regions but no defunct list for a thread without cleanup, is left out, as is such a thread's exit there.
- ReadyIndex.InsertMarks: `number_mask` and `high_mask` are computed from the priority where they are used instead of
  stored with the thread.
- Threads.Scheduler.Schedule: some thread is ready, as the idle thread always is.
- MemHeap.Memheap.Alloc: sizes are unbounded, so a request that wraps when rounded up is not modelled; the same
  holds for the slab and small heaps. Headers are fields by address, with bytes of arbitrary content in memory;
  reading a header field after its bytes were overwritten is not modelled.
- Heap semaphores: each locked region is one step. `slab.c` releases its semaphore on the page-failure path
  once more than it takes it; nothing is claimed of the count there. `Realloc` of memheap and small heap and `Malloc`
  and `Free` of slab are one step each, though the code gives the lock back inside them (`memheap.c` lines 409-420,
  `mem.c` lines 459-470, `slab.c` lines 609-621).
- Slab.SlabHeap.Malloc: zone lists and free-chunk lists are sequences instead of links kept inside zones and chunks.
  `rt_realloc` and `rt_calloc` of the slab heap are compositions of its malloc and free and are not modelled.
- SmallHeap.Heap.Free: addresses inside the heap that were not handed out are excluded, as the code asserts.
- FinshCorrect.Compiled: left out are `~` and `*` on an operand without a type (`FinshLimits.ComplementIff`,
  `FinshLimits.DereferenceIff`), `++` and `--` of anything but a variable (`FinshLimits.StepIff`) and of system
  variables, `&` of anything that is no place, calls with more than 16 arguments, and casts of a bare system call.
  The evaluator takes the type of `*p` from p, as the code does, so `*p` for a `char*` is four bytes unlike in C; a
  `char` that is widened is not sign-extended; and it stops where C leaves an operation undefined. Memory is
  little-endian, and signed arithmetic wraps.
- FinshCorrect.RunsAsEvaluated: the same expressions are left out.
- FinshCompiler.RunLine: the same expressions are left out.
- finsh errors that stop compilation, its lexer, parser, string heap and line editing.
- `printf` formatting and the string routines of `kservice.c`.
