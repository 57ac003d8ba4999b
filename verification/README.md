# Block layer, Mini-OS kernel and cipher chaining: verified models

Dafny models of the concurrent and redundant data structures in three parts of the Xen
tree, with proofs of what each is for.

- **Block layer of the 2.6.18 kernel.** `Barrier`, `BarrierInvariant`, `BarrierOrder`,
  `BarrierPayload`, `BarrierBack`, `BarrierCounterexample` and `RequestQueue` model ordered
  writes: the dispatch queue, the I/O scheduler behind it, the requests at the driver, and the
  drain, pre-flush, barrier and post-flush sequence, ordered by a single colour bit. `Deadline*`, `Anticipatory*` and `Cfq*`
  model the three I/O schedulers, each of which keeps several views of one set of requests.
- **Mini-OS kernel.** `Bitmap`, `Chunks` and `BuddyAllocator` model the page allocator;
  `EventChannel` and `EventGuest` the two-level event delivery shared with the hypervisor;
  `Sched` the thread scheduler.
- **Cipher chaining.** `Cbc` models CBC mode over buffers cut into arbitrary runs.

Code that updates state in place is a class, or a method on an array or on values, proved
against functions on values; lemmas about those functions carry the whole-run results.
`Sets` and `Lists` hold shared vocabulary. `dafny verify dfyconfig.toml` checks the project.

How the models represent things:

- Red-black trees are finite maps from sector to request with least, next and previous keys;
  linked lists are sequences; times and counters are natural numbers.
- Requests, queues, threads and processes are numbers. Two ghost-like tags of a request in
  the barrier model, its place in the order of addition and the number of barriers added
  before it, are never read by the protocol and only state what the colours must stand for.
  The protocol invariant says, in those terms, that the dispatch queue is in order of addition
  up to reordering between barriers, that colours are the parity of those numbers, and where
  each proxy and each unfinished request is in every phase.
- Clocks, page boundaries, alignment, allocation failures, the handlers of events, the answers
  of the anticipation heuristics, the end of the last request in the dispatch queue and the
  hash function are parameters, so every result holds for all of them.
- The barrier model takes from the block layer that no file system request is inserted at the
  front (the assumption stated in `start_ordered`).
- In the event model every access to a shared word is one step, and any number of callbacks,
  unmasks and raises may be in progress at once.

What the models show about the code:

- **A barrier turned away while requests are in flight breaks the ordering.** If a queue is
  switched to unordered while a barrier is queued, `blk_do_ordered` ends that barrier without
  draining. Requests of its generation then carry the colour of a later one, and a following
  barrier can overtake them. From every such state the order can be broken and the queue made
  to hang; after every other step the queue stays ordered and live.
- **A requeued request always goes to the very front**, so the scan in `elv_insert` never
  moves past anything during a draining sequence.
- **The allocation bitmap can be one word short.** `map_alloc` and `map_free` touch the word
  that holds the bit after the run; it exists for the last page exactly when the number of
  pages is at least eight past a multiple of 32768.
- **The anticipatory cache** can be wrong after a dispatch when a queued request starts inside
  the dispatched one, and after a front merge; the exact conditions are proved. A front merge
  onto a sector where another request starts can also leave the cache empty although a request
  is queued, in which case an asynchronous dispatch would have no request to move.
- **Asynchronous requests can be starved by the anticipatory scheduler.** When the change to
  an asynchronous batch has to wait for the driver, `as_completed_request` ends the wait
  without starting the new batch's time, so the batch is over before it begins. The exact
  condition is proved, and runs of any length in which no such request is sent.
- **CFQ's preemption comment and code differ.** A preempted queue is said to go to the front
  of its list; the code puts it one before the last entry. The model follows the code.
- The deadline tunable `writes_starved` is compared as an unsigned number, so a negative
  setting acts as a very large one; the bound is stated for the value compared.

## Model

| member | source | states |
|---|---|---|
| `Barrier.FirstAtLeast` | linux-2.6.18-xen.hg/block/elevator.c:397-405 | the position a requeued request is given: everything before it has a lower sequence number and what stands there has not |
| `BarrierInvariant.PhasesMoveForward` | linux-2.6.18-xen.hg/block/ll_rw_blk.c:365-416 | while a barrier sequence runs, no step takes a phase bit away and the current phase never moves back; only the end of the sequence clears the bits |
| `BarrierInvariant.HandedIsCurrent` | linux-2.6.18-xen.hg/block/ll_rw_blk.c:553-556 | whatever passes the sequence test at the head of the queue belongs to the phase that is open now: a request being drained, or the one proxy whose turn it is |
| `BarrierInvariant.AddSortedKeeps` | linux-2.6.18-xen.hg/block/elevator.c:428-462 | adding a request to the I/O scheduler keeps the protocol invariant |
| `BarrierInvariant.AddBackKeeps` | linux-2.6.18-xen.hg/block/elevator.c:428-462 | adding at the back, with the colour toggled by a barrier, keeps the protocol invariant: colours stay the parity of the number of barriers added before |
| `BarrierInvariant.DispatchKeeps` | linux-2.6.18-xen.hg/block/elevator.c:231-259 | sorted dispatch never moves a request across a barrier or a started request |
| `BarrierInvariant.HandOutKeeps` | linux-2.6.18-xen.hg/block/elevator.c:490-565 | handing out the head keeps the protocol invariant |
| `BarrierInvariant.StartKeeps` | linux-2.6.18-xen.hg/block/ll_rw_blk.c:460-510 | replacing the barrier by its proxies establishes the running-sequence invariant: proxies in phase order in front, everything behind of a later generation |
| `BarrierInvariant.DequeueKeeps` | linux-2.6.18-xen.hg/block/elevator.c:567-580 | taking a started request off the queue keeps the invariant, with in_flight counting the fs requests at the driver |
| `BarrierInvariant.CompletionIsSafe` | linux-2.6.18-xen.hg/block/elevator.c:643-669 | at any completion the counter is positive, the head that is inspected exists, and a proxy finds its phase bit clear, so the BUG_ON cannot fire |
| `BarrierInvariant.CompleteFsKeeps` | linux-2.6.18-xen.hg/block/elevator.c:643-669 | completing an fs request, with the drain check, keeps the invariant |
| `BarrierInvariant.CompleteProxyKeeps` | linux-2.6.18-xen.hg/block/ll_rw_blk.c:418-434 | completing a proxy closes exactly its phase, and the last one ends the sequence |
| `BarrierInvariant.KillEmptyKeeps` | linux-2.6.18-xen.hg/block/elevator.c:495-505 | an empty barrier placeholder is met only while its phase is open, and ending it keeps the invariant |
| `BarrierInvariant.RequeuePosition` | linux-2.6.18-xen.hg/block/elevator.c:384-411 | the place found by colour for a requeued request is always the very front, ahead of everything waiting in the true order of addition |
| `BarrierInvariant.RequeueKeeps` | linux-2.6.18-xen.hg/block/elevator.c:302-319 | giving a request back keeps the invariant |
| `BarrierInvariant.RejectKeeps` | linux-2.6.18-xen.hg/block/ll_rw_blk.c:521-536 | turning a barrier away from an unordered queue with nothing in flight keeps the invariant |
| `BarrierInvariant.StepIsSafe` | linux-2.6.18-xen.hg/block/ll_rw_blk.c:392-416 | in every state the invariant admits, no step that can be taken trips a BUG_ON, underflows a counter or reads a missing list head |
| `BarrierInvariant.StepKeeps` | linux-2.6.18-xen.hg/block/elevator.c:231-488 | every step of submitter, scheduler, driver and configuration keeps the invariant, unless it turns a barrier away while busy |
| `BarrierInvariant.StepKeepsExactly` | linux-2.6.18-xen.hg/block/ll_rw_blk.c:521-536 | the invariant survives a step if and only if the step does not turn a barrier away while requests are in flight |
| `BarrierOrder.StepHistory` | linux-2.6.18-xen.hg/block/ll_rw_blk.c:460-559 | every step keeps the recorded history ordered and every added request in exactly one place until it is finished |
| `BarrierOrder.RunKeeps` | linux-2.6.18-xen.hg/block/elevator.c:231-488 | the invariants hold after every run from a state in which they hold |
| `BarrierOrder.RunsAreOrdered` | linux-2.6.18-xen.hg/block/ll_rw_blk.c:460-559 | over every interleaving of add, dispatch, next, dequeue, complete, requeue and mode change from an empty queue that turns no barrier away while busy, the history is ordered: the drain is done only when all earlier requests are finished, every other phase only after its flush or data was handed out or it was skipped at the start, each once; a barrier ends once and after all its phases; and nothing reachable can fault |
| `BarrierOrder.NoRequestCrossesBarrier` | linux-2.6.18-xen.hg/block/ll_rw_blk.c:460-559 | in every run from an empty queue that turns no barrier away while busy, when any part of a barrier has been handed to the driver, every request added earlier was finished by then and none of them is handed out afterwards, and no request added later is handed out until the barrier has ended |
| `BarrierOrder.OrderedIsNotCrossed` | linux-2.6.18-xen.hg/block/elevator.c:231-488 | an ordered history lets no request cross a barrier that has begun, which can only be finished by ending |
| `BarrierOrder.PhasesInTurn` | linux-2.6.18-xen.hg/block/ll_rw_blk.c:392-434 | in an ordered history, when a phase is done every earlier phase is closed and its own flush or data has been handed out, an empty barrier having no data |
| `BarrierOrder.NeverStuck` | linux-2.6.18-xen.hg/block/elevator.c:643-669 | a running sequence with nothing at the driver always has a next request that may be handed out |
| `BarrierBack.BackInsertionOrders` | linux-2.6.18-xen.hg/block/elevator.c:352-368 | in every run a request is first handed out only after every non-barrier request inserted at the back before it, and one inserted at the back only after every non-barrier request added before it, however the others are sorted |
| `BarrierBack.StepBackInv` | linux-2.6.18-xen.hg/block/elevator.c:231-462 | every step keeps requests inserted at the back in line with what was added before and after them |
| `BarrierPayload.DataGoesWhereAsked` | linux-2.6.18-xen.hg/block/ll_rw_blk.c:460-510 | in every run from an empty queue, a request waiting or at the driver, and the data proxy of a barrier, has the sector and the emptiness given when it was added |
| `BarrierPayload.StepCarries` | linux-2.6.18-xen.hg/block/elevator.c:231-669 | every step hands on the requests as they were added |
| `BarrierPayload.ModeIsLastSet` | linux-2.6.18-xen.hg/block/ll_rw_blk.c:316-341 | the mode in force after any run is the one last set |
| `BarrierPayload.SkippedExactly` | linux-2.6.18-xen.hg/block/ll_rw_blk.c:460-510 | in every run a flush of a barrier is left out if and only if the mode last set before the step that started the barrier has no such flush, or, for the post-flush, the barrier is empty |
| `BarrierPayload.FlushesAsConfigured` | linux-2.6.18-xen.hg/block/ll_rw_blk.c:460-559 | a barrier that has ended was started at some step, and pre-flush, data and post-flush have been handed to the driver exactly as the mode last set before that step and the emptiness of the barrier say |
| `BarrierPayload.EndedFlushed` | linux-2.6.18-xen.hg/block/ll_rw_blk.c:392-434 | in an ordered history an ended barrier had each flush handed out that was not left out at its start |
| `BarrierCounterexample.BusyRejectionBreaksOrder` | linux-2.6.18-xen.hg/block/ll_rw_blk.c:521-536 | from every state in which an unordered queue turns a barrier away with requests in flight, there is a run in which a later barrier's data is handed out although an earlier request is unfinished |
| `BarrierCounterexample.BusyRejectionHangs` | linux-2.6.18-xen.hg/block/ll_rw_blk.c:521-536 | from every such state there is a run, turning no further barrier away while busy, after which the queue hangs in mid-sequence |
| `BarrierCounterexample.SafeExactly` | linux-2.6.18-xen.hg/block/ll_rw_blk.c:521-536 | every continuation that turns no barrier away while busy is ordered and never hangs, if and only if the step just taken turned none away while busy |
| `BarrierCounterexample.OrderCanBreak` | linux-2.6.18-xen.hg/block/ll_rw_blk.c:521-536 | such a run starts from an empty queue |
| `BlockQueue.FindSortPosition` | linux-2.6.18-xen.hg/block/elevator.c:236-258 | the backward scan stops behind the last queued request that is fixed or not after the new one in elevator order |
| `BlockQueue.SortedInsertionKeepsElevatorOrder` | linux-2.6.18-xen.hg/block/elevator.c:231-259 | between fixed requests the dispatch queue stays in one-way elevator order around the boundary |
| `BlockQueue.RequestQueue.constructor` | linux-2.6.18-xen.hg/block/elevator.c:178-188 | the empty queue meets the invariants |
| `BlockQueue.RequestQueue.DispatchSort` | linux-2.6.18-xen.hg/block/elevator.c:231-259 | one request moves from the scheduler to its sorted place, and the queue stays in order |
| `BlockQueue.RequestQueue.Drain` | linux-2.6.18-xen.hg/block/elevator.c:321-333 | the forced drain empties the scheduler, in whatever order it dispatches, through sorted dispatches only |
| `BlockQueue.RequestQueue.InsertSorted` | linux-2.6.18-xen.hg/block/elevator.c:370-382 | sorted insertion gives the request to the scheduler with the current colour |
| `BlockQueue.RequestQueue.InsertBack` | linux-2.6.18-xen.hg/block/elevator.c:352-368 | back insertion puts the request last and toggles the colour for a barrier |
| `BlockQueue.RequestQueue.AddRequest` | linux-2.6.18-xen.hg/block/elevator.c:428-462 | adding is a run of protocol steps ending in the insertion that keeps the queue in order; a barrier or back insertion drains the scheduler first |
| `BlockQueue.RequestQueue.SetOrdered` | linux-2.6.18-xen.hg/block/ll_rw_blk.c:316-341 | the mode is stored as given, and the queue stays in order whatever is queued or running |
| `BlockQueue.RequestQueue.BeginSequence` | linux-2.6.18-xen.hg/block/ll_rw_blk.c:460-510 | stacking in reverse at the head leaves the flushes the mode has, with the barrier's own data between them, to its own sector, in front of what was behind it |
| `BlockQueue.RequestQueue.EndPhase` | linux-2.6.18-xen.hg/block/ll_rw_blk.c:392-416 | setting a phase bit, and ending the original barrier when all are set |
| `BlockQueue.RequestQueue.DequeueRequest` | linux-2.6.18-xen.hg/block/elevator.c:567-580 | the driver takes a request it was handed, and the queue stays in order |
| `BlockQueue.RequestQueue.CompleteRequest` | linux-2.6.18-xen.hg/block/elevator.c:643-669 | any request at the driver may be completed without a fault, with the drain check and the end_io function of a proxy, and the queue stays in order |
| `BlockQueue.RequestQueue.RequeueRequest` | linux-2.6.18-xen.hg/block/elevator.c:302-319 | any request at the driver may come back without a fault, and the queue stays in order |
| `BlockQueue.RequestQueue.FindRequeuePosition` | linux-2.6.18-xen.hg/block/elevator.c:397-405 | the forward scan finds the first position whose sequence number is not lower |
| `BlockQueue.RequestQueue.ReqSeqOf` | linux-2.6.18-xen.hg/block/ll_rw_blk.c:372-390 | proxies by identity, other requests by comparing colours |
| `BlockQueue.RequestQueue.DeliverHead` | linux-2.6.18-xen.hg/block/elevator.c:490-565 | the head is handed out, or an empty placeholder ended and removed |
| `BlockQueue.RequestQueue.NextOnce` | linux-2.6.18-xen.hg/block/ll_rw_blk.c:512-559 | one look at the head: start a sequence, wait, turn away, or deliver |
| `BlockQueue.RequestQueue.NextTurn` | linux-2.6.18-xen.hg/block/elevator.c:474-488 | one look at the head of a queue in order never faults, and leaves it in order exactly if it turns no barrier away while busy |
| `BlockQueue.RequestQueue.NextRequest` | linux-2.6.18-xen.hg/block/elevator.c:474-565 | fetching ends with a request marked started at the head, or with a queue that is empty or in a sequence that must wait, and with an idle driver only with an empty one; the queue stays in order if no barrier was turned away while busy |
| `Bitmap.MapAlloc` | extras/mini-os/mm.c:72-91 | exactly the bits of the run are set, word by word through the two masks, and no other page changes |
| `Bitmap.MapFree` | extras/mini-os/mm.c:94-113 | exactly the bits of the run are cleared and no other page changes |
| `Bitmap.HighMaskBits` | extras/mini-os/mm.c:72-91 | the negation of one shifted by the start offset has exactly the bits from there up |
| `Bitmap.LowMaskBits` | extras/mini-os/mm.c:72-91 | one shifted by the end offset, less one, has exactly the bits below it |
| `Chunks.NestOrMiss` | extras/mini-os/mm.c:232-253 | two aligned power-of-two blocks are nested or disjoint |
| `Chunks.BuddyFacts` | extras/mini-os/mm.c:324-344 | the buddy of an aligned block is aligned, disjoint from it, and the two make up the next larger aligned block |
| `Chunks.Halves` | extras/mini-os/mm.c:278-295 | splitting an aligned block gives two aligned buddies that cover it |
| `Chunks.FreeBlockInsideChunk` | extras/mini-os/mm.c:258-306 | in a partition without free buddies, any aligned free block lies within a single chunk |
| `Chunks.CanonicalIsMaximal` | extras/mini-os/mm.c:232-253 | every chunk of such a partition is a maximal aligned block of free pages |
| `Chunks.CanonicalUnique` | extras/mini-os/mm.c:322-360 | a set of free pages has only one partition into aligned chunks without free buddies |
| `Chunks.BuddyPageIsHeader` | extras/mini-os/mm.c:322-351 | if the buddy's first page is free, a free chunk no larger than the block starts exactly there |
| `BuddyAllocator.SplitHeld` | extras/mini-os/mm.c:278-295 | taking the upper half off a held block leaves lists, headers and the lower half consistent |
| `BuddyAllocator.MergeHeld` | extras/mini-os/mm.c:342-351 | unlinking the free buddy and holding the parent keeps everything consistent |
| `BuddyAllocator.HeaderDecides` | extras/mini-os/mm.c:322-351 | a header is read only where a listed chunk of at most the held level starts, and its level says whether the buddy is free as a whole |
| `BuddyAllocator.MergeRound` | extras/mini-os/mm.c:322-351 | in each round the bitmap test and the level test together are true exactly when the buddy is a listed chunk of equal level |
| `BuddyAllocator.BlockExists` | extras/mini-os/mm.c:258-306 | a list at or above an order is non-empty exactly when an aligned run of 2^order free pages exists |
| `BuddyAllocator.FindLevel` | extras/mini-os/mm.c:265-271 | the lowest level from the order up whose list is not empty, or the end |
| `BuddyAllocator.Carve` | extras/mini-os/mm.c:278-295 | the split loop brings the held chunk down to the order and keeps the spare halves listed |
| `BuddyAllocator.Coalesce` | extras/mini-os/mm.c:322-351 | the merge loop ends with a held block whose buddy is not free |
| `BuddyAllocator.InitialLevel` | extras/mini-os/mm.c:234-240 | the next initial chunk is limited only by the alignment of its start or by the pages that remain |
| `BuddyAllocator.InitialLists` | extras/mini-os/mm.c:232-253 | the initial chunks partition the range and contain no two free buddies |
| `BuddyAllocator.InitialBits` | extras/mini-os/mm.c:216-226 | initially exactly the pages handed to the allocator are free in the bitmap |
| `BuddyAllocator.BitmapReach` | extras/mini-os/mm.c:216-226 | the bitmap has the word past the last page, which map_alloc and map_free touch, if and only if the number of pages is at least eight past a multiple of 32768 |
| `BuddyAllocator.PageAllocator.constructor` | extras/mini-os/mm.c:200-254 | after initialisation the chunks are exactly the free pages of the bitmap, aligned, disjoint, with true headers and no two free buddies |
| `BuddyAllocator.PageAllocator.AllocPages` | extras/mini-os/mm.c:258-306 | fails exactly when no aligned run of 2^order free pages exists, then changing nothing; otherwise returns such a run and marks it and nothing else |
| `BuddyAllocator.PageAllocator.FreePages` | extras/mini-os/mm.c:308-362 | exactly the freed pages become free and the canonical chunk structure is kept |
| `BuddyAllocator.PageAllocator.UserWrite` | extras/mini-os/mm.c:322-351 | whatever owners write into allocated pages, over old headers included, disturbs nothing |
| `BuddyAllocator.PageAllocator.AllocThenFree` | extras/mini-os/mm.c:258-362 | an allocation followed by the matching free restores the same set of free chunks |
| `EventChannel.StepKeeps` | extras/mini-os/hypervisor.c:39-122 | every single access of a callback, an unmask, a mask, a clear or a hypervisor raise keeps each unmasked pending port covered and the upcall flag set while a selected word waits for nobody |
| `EventChannel.FrameStepKeeps` | extras/mini-os/hypervisor.c:39-116 | the guest's own accesses keep the cover |
| `EventChannel.RaiseStepKeeps` | xen/common/event_channel.c:535-576 | the hypervisor's accesses keep the cover |
| `EventChannel.RunKeeps` | extras/mini-os/hypervisor.c:39-122 | the cover holds over every interleaving |
| `EventChannel.NoLostEvents` | extras/mini-os/hypervisor.c:39-122 | from the initial state, over every interleaving, an unmasked pending port is covered by a selector bit, a scan, an unmask or a raise; with nothing running and no upcall pending there is none |
| `EventGuest.SortedListFacts` | extras/mini-os/hypervisor.c:58-66 | repeated lowest-bit scans list every element once, in ascending order |
| `EventGuest.CountAllFacts` | extras/mini-os/events.c:84-85 | along such a list each handled port is counted exactly once |
| `EventGuest.Guest.constructor` | extras/mini-os/events.c:181-197 | every port with an action starts masked, and nothing is pending or selected |
| `EventGuest.Guest.DoEvent` | extras/mini-os/events.c:72-92 | the pending bit is cleared before the action is counted, and a port out of range only cleared |
| `EventGuest.Guest.MaskEvtchn` | extras/mini-os/hypervisor.c:91-95 | a step of the shared protocol that keeps every pending port covered, and after which no scan finds the port active |
| `EventGuest.Guest.ClearEvtchn` | extras/mini-os/hypervisor.c:118-122 | a step of the shared protocol that keeps every pending port covered, and after which no scan finds the port active until it is raised again |
| `EventGuest.Guest.Raise` | xen/common/event_channel.c:535-576 | a raise makes the port pending and keeps every pending unmasked port covered |
| `EventGuest.Guest.ScanWord` | extras/mini-os/hypervisor.c:61-68 | the inner loop delivers exactly the active ports of a word, in ascending order |
| `EventGuest.Guest.Callback` | extras/mini-os/hypervisor.c:39-72 | undisturbed, a callback delivers exactly the pending unmasked ports of the selected words, once each and in ascending order, and is a run of the shared protocol |
| `EventGuest.Guest.ForceCallback` | extras/mini-os/hypervisor.c:74-89 | however many ports the hypervisor raises after each turn, the loop ends with no upcall and no unmasked port pending, each delivery counted, and the upcall mask restored; without raises it delivers exactly what was due |
| `EventGuest.Guest.UnmaskEvtchn` | extras/mini-os/hypervisor.c:97-116 | a port found pending whose word was not selected is selected again and, if upcalls are allowed, delivered at once and counted, with nothing unmasked left pending; the cover is kept in every case |
| `EventGuest.CallbackRuns` | extras/mini-os/hypervisor.c:39-72 | the callback of the sequential model is an interleaving of the concurrent one |
| `EventGuest.CallbackDeliversAll` | extras/mini-os/hypervisor.c:39-72 | whatever interleavings came before, a callback that runs alone finds every unmasked pending port selected and leaves none |
| `Sched.FirstReady` | extras/mini-os/sched.c:100-118 | the first thread of the list that is runnable or whose timer has expired; none before it is |
| `Sched.StepKeeps` | extras/mini-os/sched.c:75-242 | run list, exited list and freed threads stay disjoint and duplicate-free, and the running thread is never freed, through every step |
| `Sched.RunKeeps` | extras/mini-os/sched.c:75-242 | the lists stay disjoint and the running thread unfreed after every run of steps |
| `Sched.PickedRuns` | extras/mini-os/sched.c:100-118 | the thread picked was ready, runs next, goes to the back, is runnable and loses an expired timer; nothing else about any thread changes |
| `Sched.StepAdvances` | extras/mini-os/sched.c:100-118 | a waiting thread never moves back in the list, and each scan that finds it ready and picks another moves it exactly one place forward |
| `Sched.BoundedWait` | extras/mini-os/sched.c:75-242 | a thread that is ready at every scan, with k threads ahead of it, is chosen within k+1 scans, whatever creations, exits, wakes, blocks and sleeps of others come between |
| `Sched.ReadyPersists` | extras/mini-os/sched.c:103-118 | a runnable thread, or one whose timer has expired, is ready at every later scan unless something blocks it or time runs back |
| `Sched.StaysBlocked` | extras/mini-os/sched.c:224-228 | a thread that is ready at no time stays so, and no scan picks it, until it is woken or made anew |
| `Sched.BlockedUntilWoken` | extras/mini-os/sched.c:224-242 | a blocked thread that is not running is picked by no scan of any run without a wake of it |
| `Sched.SleepHolds` | extras/mini-os/sched.c:95-118 | a sleeper keeps its timer and its place on the list, and no scan before its time picks it |
| `Sched.SleeperRunsInTime` | extras/mini-os/sched.c:230-235 | a sleeper is not chosen before its time, and with k threads ahead is chosen within k+1 scans from then on, whatever the others do |
| `Sched.WokenRunsInTime` | extras/mini-os/sched.c:143-242 | a woken or new thread with k threads ahead is chosen within k+1 scans |
| `Sched.StepConserves` | extras/mini-os/sched.c:75-242 | every thread ever created is on the run list, exited or freed; it leaves the run list only by its own exit and is never unfreed |
| `Sched.SwitchFrees` | extras/mini-os/sched.c:129-138 | a switch to a thread that has run before frees every exited thread |
| `Sched.Sweep` | extras/mini-os/sched.c:131-140 | exactly the exited threads other than the one returning are freed |
| `Sched.Scheduler.constructor` | extras/mini-os/sched.c:291-300 | only the idle thread, which heads the list without being on it |
| `Sched.Scheduler.SchedulePass` | extras/mini-os/sched.c:93-125 | one scan picks the first ready thread; if there is none, the alarm is the earliest timer, at most ten seconds away, and nothing changes |
| `Sched.Scheduler.SwitchTo` | extras/mini-os/sched.c:110-140 | the chosen thread goes to the back, becomes current and frees what exited, unless it starts for the first time |
| `Sched.Scheduler.Reap` | extras/mini-os/sched.c:131-140 | exited threads are freed by the thread that resumes, never itself |
| `Sched.Scheduler.Create` | extras/mini-os/sched.c:143-166 | a new thread at the back of the list is ready at every time, and no other changes |
| `Sched.Scheduler.Exit` | extras/mini-os/sched.c:204-215 | the running thread leaves the run list, not runnable, and waits on the exited list |
| `Sched.Scheduler.Block` | extras/mini-os/sched.c:224-228 | the thread is ready at no time, and no other changes |
| `Sched.Scheduler.Sleep` | extras/mini-os/sched.c:230-235 | the running thread is ready exactly from its wakeup time on, and no other changes |
| `Sched.Scheduler.Wake` | extras/mini-os/sched.c:238-242 | the thread is ready at every time, and no other changes |
| `Deadline.NextAfterIsLowest` | linux-2.6.18-xen.hg/block/deadline-iosched.c:418-436 | the tree successor is the lowest request of the direction above, and is missing only if there is none |
| `Deadline.FirstIsLowest` | linux-2.6.18-xen.hg/block/deadline-iosched.c:249-260 | the first request is the lowest of its direction |
| `Deadline.RemovedAgrees` | linux-2.6.18-xen.hg/block/deadline-iosched.c:287-295 | removing a request keeps trees, FIFOs, hash and next pointers views of the same requests |
| `Deadline.MovedAgrees` | linux-2.6.18-xen.hg/block/deadline-iosched.c:418-436 | dispatching a request keeps all four views in agreement, with at most one next pointer set and that one at a queued request |
| `Deadline.MadeRoomAgrees` | linux-2.6.18-xen.hg/block/deadline-iosched.c:188-204 | dispatching an alias frees its sector and keeps agreement, also while a request is out of the tree |
| `Deadline.AddedAgrees` | linux-2.6.18-xen.hg/block/deadline-iosched.c:265-282 | adding a request, alias or not, keeps agreement |
| `Deadline.MergedAgrees` | linux-2.6.18-xen.hg/block/deadline-iosched.c:342-360 | back and front merges keep agreement, rehashing and repositioning the request past any alias |
| `Deadline.AbsorbedAgrees` | linux-2.6.18-xen.hg/block/deadline-iosched.c:362-400 | merging two requests, with rehashing and repositioning past any alias, keeps agreement |
| `DeadlineOrder.HeadDecides` | linux-2.6.18-xen.hg/block/deadline-iosched.c:444-455 | the FIFO head has expired exactly when some queued request of the direction has, and no request of it expires earlier |
| `DeadlineOrder.AddedInOrder` | linux-2.6.18-xen.hg/block/deadline-iosched.c:265-282 | a request added now is last in order of expiry |
| `DeadlineOrder.MergedInOrder` | linux-2.6.18-xen.hg/block/deadline-iosched.c:342-360 | merging a bio keeps the FIFOs in order of expiry |
| `DeadlineOrder.AbsorbedInOrder` | linux-2.6.18-xen.hg/block/deadline-iosched.c:362-400 | taking over an earlier deadline together with its place keeps the FIFOs in order of expiry |
| `DeadlineOrder.AbsorbedDeadline` | linux-2.6.18-xen.hg/block/deadline-iosched.c:385-394 | the merged request has its new extent and the earlier of the two deadlines, and the absorbed one is gone |
| `DeadlineOrder.ChosenQueued` | linux-2.6.18-xen.hg/block/deadline-iosched.c:461-555 | a dispatch takes a queued request, and takes none exactly when nothing is queued |
| `DeadlineOrder.ExpiredFirst` | linux-2.6.18-xen.hg/block/deadline-iosched.c:522-530 | outside a batch, if any request of the chosen direction has expired, the one that expires first goes out |
| `DeadlineOrder.DispatchedKeeps` | linux-2.6.18-xen.hg/block/deadline-iosched.c:461-555 | a dispatch keeps agreement, order of expiry and the bound on deadlines |
| `DeadlineOrder.BatchGoesOn` | linux-2.6.18-xen.hg/block/deadline-iosched.c:472-487 | after a dispatch the batch may go on exactly if the request next above starts where the dispatched one ended and the batch is not full |
| `DeadlineOrder.ReadUsesPatience` | linux-2.6.18-xen.hg/block/deadline-iosched.c:461-555 | each dispatch that picks a read while a write waits lowers the measure over starved and batching |
| `DeadlineOrder.AddedIsStep` | linux-2.6.18-xen.hg/block/deadline-iosched.c:265-282 | adding, even when it dispatches an alias, leaves both starvation counters alone |
| `DeadlineOrder.MergedIsStep` | linux-2.6.18-xen.hg/block/deadline-iosched.c:342-360 | merging a bio into a request, even past an alias, leaves both starvation counters alone |
| `DeadlineOrder.AbsorbedIsStep` | linux-2.6.18-xen.hg/block/deadline-iosched.c:362-400 | merging two requests leaves both starvation counters alone |
| `DeadlineOrder.WriteStarvationBound` | linux-2.6.18-xen.hg/block/deadline-iosched.c:461-555 | in every run, while a write waits at most (writes_starved+1)*max(1,fifo_batch) dispatches in a row pick reads |
| `DeadlineOrder.DispatchesDue` | linux-2.6.18-xen.hg/block/deadline-iosched.c:461-555 | a batch goes on with the next request if that starts where the last ended and the batch is not full; otherwise a write goes exactly if one waits and no read does or reads were preferred writes_starved times, and within the direction the request that expired first, else the next in line, else the lowest; the counters afterwards are stated |
| `DeadlineOrder.ScanGoesUp` | linux-2.6.18-xen.hg/block/deadline-iosched.c:418-437 | of two dispatches in a row with no batch and nothing expired, the second is the tree successor of the first if that is of its direction and has one, else the lowest |
| `DeadlineOrder.ReadsPreferred` | linux-2.6.18-xen.hg/block/deadline-iosched.c:493-520 | in every run, once a turn has gone to writes, the next writes_starved turns that find a read waiting all go to reads |
| `DeadlineScheduler.ScanChain` | linux-2.6.18-xen.hg/block/deadline-iosched.c:141-155 | walking a chain finds a mergeable request ending at the sector exactly when one is on it, and drops only requests that cannot merge |
| `DeadlineScheduler.Scheduler.constructor` | linux-2.6.18-xen.hg/block/deadline-iosched.c:605-646 | an empty scheduler meets the invariant |
| `DeadlineScheduler.Scheduler.FindHash` | linux-2.6.18-xen.hg/block/deadline-iosched.c:134-156 | a lookup finds a request exactly when a scan of all queued requests for a mergeable one ending there would |
| `DeadlineScheduler.Scheduler.HotHash` | linux-2.6.18-xen.hg/block/deadline-iosched.c:122-132 | moving an entry to the front of its chain changes only the order |
| `DeadlineScheduler.Scheduler.Merge` | linux-2.6.18-xen.hg/block/deadline-iosched.c:297-340 | a back merge is offered only onto a mergeable request ending at the bio and a front merge only onto one starting at its end; none is offered only if nothing mergeable ends there or one ending there was refused, and the request starting at its end, if any, was refused too |
| `DeadlineScheduler.Scheduler.RemoveRequest` | linux-2.6.18-xen.hg/block/deadline-iosched.c:287-295 | the request leaves all four structures, and a next pointer to it moves on |
| `DeadlineScheduler.Scheduler.MoveRequest` | linux-2.6.18-xen.hg/block/deadline-iosched.c:418-436 | the request is dispatched and its tree successor is the only next request |
| `DeadlineScheduler.Scheduler.MakeRoom` | linux-2.6.18-xen.hg/block/deadline-iosched.c:195-203 | the retry loop ends with the sector free |
| `DeadlineScheduler.Scheduler.AddRequest` | linux-2.6.18-xen.hg/block/deadline-iosched.c:265-282 | the request is queued with its deadline, last in its FIFO, an alias at its sector being dispatched and nothing else changed; all invariants hold |
| `DeadlineScheduler.Scheduler.DeleteRb` | linux-2.6.18-xen.hg/block/deadline-iosched.c:206-222 | the node leaves the tree and a next pointer to it moves to its successor |
| `DeadlineScheduler.Scheduler.AddRb` | linux-2.6.18-xen.hg/block/deadline-iosched.c:188-204 | the request is back in the tree, past any alias |
| `DeadlineScheduler.Scheduler.MergedRequest` | linux-2.6.18-xen.hg/block/deadline-iosched.c:342-360 | the grown request is found at its new sector and end, and all invariants hold |
| `DeadlineScheduler.Scheduler.MergedRequests` | linux-2.6.18-xen.hg/block/deadline-iosched.c:362-400 | one request is left of the two, in the earlier place, and all invariants hold |
| `DeadlineScheduler.Scheduler.ForbidMerge` | linux-2.6.18-xen.hg/block/deadline-iosched.c:146-149 | a request that becomes unmergeable may stay on its chain without harm |
| `DeadlineScheduler.Scheduler.CheckFifo` | linux-2.6.18-xen.hg/block/deadline-iosched.c:444-455 | true exactly when some queued request of the direction has expired |
| `DeadlineScheduler.Scheduler.DispatchRequests` | linux-2.6.18-xen.hg/block/deadline-iosched.c:461-555 | sends the request that is due by direction, expiry and position, leaves the successor next in line and the counters right, reports whether there was one, and keeps all invariants |
| `DeadlineScheduler.Scheduler.Choose` | linux-2.6.18-xen.hg/block/deadline-iosched.c:472-545 | chooses a request that is due, and none exactly when nothing is queued |
| `AnticipatoryCache.ChoiceIsOrder` | linux-2.6.18-xen.hg/block/as-iosched.c:461-529 | the preference between two requests does not depend on their order and is a strict total order |
| `AnticipatoryCache.ChoiceMeans` | linux-2.6.18-xen.hg/block/as-iosched.c:461-529 | of two requests ahead of the head the nearer is preferred; one behind within reach only if twice its distance is less; one out of reach only when both are, and then the lower |
| `AnticipatoryCache.FindNextInLine` | linux-2.6.18-xen.hg/block/as-iosched.c:536-562 | what is found is another queued request, and none only if there is no other |
| `AnticipatoryCache.AddedBest` | linux-2.6.18-xen.hg/block/as-iosched.c:933-938 | comparing a new request with the cached one keeps the cache the best of all |
| `AnticipatoryCache.CachedRemovedBest` | linux-2.6.18-xen.hg/block/as-iosched.c:1059-1060 | removing the cached request, its two neighbours or the lowest request hold the best of the rest, however they lie around the head |
| `AnticipatoryCache.OtherRemovedBest` | linux-2.6.18-xen.hg/block/as-iosched.c:1042-1065 | removing any other request leaves the cache right |
| `AnticipatoryCache.DispatchedBest` | linux-2.6.18-xen.hg/block/as-iosched.c:1130-1146 | with no queued request starting inside the dispatched one, the neighbours hold the best for the new head position |
| `AnticipatoryCache.DispatchedBestExactly` | linux-2.6.18-xen.hg/block/as-iosched.c:1130-1146 | for any dispatch, the cache is right if and only if nothing starts inside the dispatched request or the first that does is still the one to come next |
| `AnticipatoryCache.InsideStartMisleads` | linux-2.6.18-xen.hg/block/as-iosched.c:1130-1146 | three requests for which looking at the neighbours misses the nearest |
| `AnticipatoryCache.FrontMergedBestExactly` | linux-2.6.18-xen.hg/block/as-iosched.c:1483-1491 | after a front merge to a free sector, which leaves the cache alone, the cache is right if and only if one comparison with the runner-up or with the moved request says so |
| `AnticipatoryCache.MergedOntoBestExactly` | linux-2.6.18-xen.hg/block/as-iosched.c:1483-1491 | after a front merge onto a sector where another request starts, which is dispatched, the cache is right if and only if something else is queued, the neighbours of the dispatched one held the best of it, and that beats the merged request |
| `AnticipatoryCache.FrontMergeMisleads` | linux-2.6.18-xen.hg/block/as-iosched.c:1483-1491 | two requests for which a front merge leaves the cache wrong |
| `AnticipatoryCache.LineStepKeeps` | linux-2.6.18-xen.hg/block/as-iosched.c:933-1160 | one addition, dispatch or removal keeps the cache the best of all queued requests |
| `AnticipatoryCache.CacheIsAlwaysBest` | linux-2.6.18-xen.hg/block/as-iosched.c:461-562 | over every run of additions, dispatches with nothing inside, and removals, the cached request is the minimum of all queued ones |
| `AnticipatoryBatch.BatchStepOk` | linux-2.6.18-xen.hg/block/as-iosched.c:984-1324 | dispatch attempts and completions keep everything outstanding of one direction: the batch's, or after a change the other |
| `AnticipatoryBatch.NeverBothOutstanding` | linux-2.6.18-xen.hg/block/as-iosched.c:1203-1324 | over every run of dispatches and completions, whatever is queued and whatever the heuristics answer, synchronous and asynchronous requests are never outstanding together |
| `AnticipatoryBatch.DecidesExactly` | linux-2.6.18-xen.hg/block/as-iosched.c:1203-1324 | an attempt changes nothing exactly when nothing is queued, it is waiting or anticipating, or a change is pending; otherwise it turns to the direction to be served and sends, oldest or cached, exactly if that was the batch's own or the driver is idle |
| `AnticipatoryBatch.ExpiredBatchesAlternate` | linux-2.6.18-xen.hg/block/as-iosched.c:1100-1113 | over every run with both directions queued, the batch's direction changes with each expiry and at no other time |
| `AnticipatoryTime.SyncExpiryServesExactly` | linux-2.6.18-xen.hg/block/as-iosched.c:997-1017 | when a synchronous batch expires with both directions queued, the next request to go out is asynchronous if and only if the driver is idle at that moment; otherwise it is synchronous again |
| `AnticipatoryTime.WritesMayStarve` | linux-2.6.18-xen.hg/block/as-iosched.c:997-1017 | from an idle start, for every n and all settings there is a run with n expiries, both directions always queued and every attempt free to send, in which no asynchronous request is sent |
| `AnticipatoryTime.AsyncExpiryServesSync` | linux-2.6.18-xen.hg/block/as-iosched.c:1231-1317 | when an asynchronous batch expires with both directions queued, the next request to go out is synchronous, at the latest at the first free attempt once the driver has drained |
| `AnticipatoryBatch.SyncBatchIsServed` | linux-2.6.18-xen.hg/block/as-iosched.c:1100-1113 | a synchronous batch that has begun does not expire before one of its requests has completed |
| `AnticipatoryBatch.DrainBeginsBatch` | linux-2.6.18-xen.hg/block/as-iosched.c:997-1005 | a pending change ends with the last request at the driver, which begins a synchronous batch anew |
| `AnticipatoryBatch.NewUntilServed` | linux-2.6.18-xen.hg/block/as-iosched.c:1007-1021 | completing a request of the batch's direction lets the batch expire |
| `AnticipatoryBatch.ChangeDrains` | linux-2.6.18-xen.hg/block/as-iosched.c:997-1005 | a pending change of direction always has something to drain, and completing it ends the change |
| `AnticipatoryBatch.AliasExclusiveExactly` | linux-2.6.18-xen.hg/block/as-iosched.c:405-413 | a request dispatched as an alias keeps the exclusion if and only if nothing else is outstanding or everything is of its direction |
| `Anticipatory.FoundIsQueued` | linux-2.6.18-xen.hg/block/as-iosched.c:536-562 | the next request found is queued, in terms of requests rather than sectors |
| `Anticipatory.RemovedOk` | linux-2.6.18-xen.hg/block/as-iosched.c:1042-1065 | removal keeps tree, FIFO and cache in agreement and acts on the line of sectors as the removal studied there |
| `Anticipatory.MovedOutOk` | linux-2.6.18-xen.hg/block/as-iosched.c:1116-1160 | a dispatch keeps tree, FIFO and cache in agreement and acts on the line of sectors as the dispatch studied there |
| `Anticipatory.AddedOk` | linux-2.6.18-xen.hg/block/as-iosched.c:1329-1363 | an addition keeps tree, FIFO and cache in agreement and acts on the line of sectors as the insertion studied there |
| `Anticipatory.FrontMergeSoundExactly` | linux-2.6.18-xen.hg/block/as-iosched.c:1469-1492 | after a front merge the cache still points at a queued request if and only if no other request started at the new sector or a third one is queued |
| `Anticipatory.FrontMergeBestExactly` | linux-2.6.18-xen.hg/block/as-iosched.c:1469-1492 | for every front merge to a new sector, alias or not, the exact condition on the requests before it under which the cache is the best of all after it |
| `Anticipatory.FrontMergeMayEmptyCache` | linux-2.6.18-xen.hg/block/as-iosched.c:1469-1492 | two requests of which a front merge leaves one queued and none cached |
| `Anticipatory.FrontMergedGoodExactly` | linux-2.6.18-xen.hg/block/as-iosched.c:1469-1492 | a front merge keeps all invariants if and only if no other request starts at the new sector or a third one is queued |
| `Anticipatory.DispatchKeepsBatch` | linux-2.6.18-xen.hg/block/as-iosched.c:1203-1324 | a dispatch of the whole scheduler keeps the exclusion |
| `Anticipatory.Scheduler.constructor` | linux-2.6.18-xen.hg/block/as-iosched.c:1639-1694 | the empty scheduler, in an asynchronous batch, meets the invariants with a right cache |
| `Anticipatory.Scheduler.RemoveQueued` | linux-2.6.18-xen.hg/block/as-iosched.c:1042-1065 | the request leaves tree and FIFO; a cache that was best stays best |
| `Anticipatory.Scheduler.MoveToDispatch` | linux-2.6.18-xen.hg/block/as-iosched.c:1116-1160 | the request goes to the driver, the head moves, and the cache is best again if nothing started inside |
| `Anticipatory.Scheduler.AddRequest` | linux-2.6.18-xen.hg/block/as-iosched.c:1329-1363 | the request is queued past any alias, last in its FIFO, and the cache stays best |
| `Anticipatory.Scheduler.BackMerged` | linux-2.6.18-xen.hg/block/as-iosched.c:1469-1481 | a back merge changes nothing the cache depends on |
| `Anticipatory.Scheduler.FrontMerge` | linux-2.6.18-xen.hg/block/as-iosched.c:1483-1491 | the request is at its new sector and a request in the way at the driver; all invariants are kept exactly if none was in the way or a third is queued |
| `Anticipatory.Scheduler.CompletedRequest` | linux-2.6.18-xen.hg/block/as-iosched.c:984-1034 | the completion lowers the count, ends a drained change of direction, and keeps the exclusion |
| `Anticipatory.Scheduler.ForcedDispatch` | linux-2.6.18-xen.hg/block/as-iosched.c:1174-1201 | everything queued goes out, each request once, and the number is returned |
| `Anticipatory.Scheduler.DispatchRequest` | linux-2.6.18-xen.hg/block/as-iosched.c:1203-1324 | which direction is served, when a request goes out and whether it is the oldest or the cached one, exactly, from what is queued and at the driver; the request exists on every path so the BUG() is unreachable, and the exclusion is kept |
| `CfqPriority.LagBounds` | linux-2.6.18-xen.hg/block/cfq-iosched.c:811-819 | from any point of the rotation the next visit to a level is fewer than N(N+1)/2 slots away |
| `CfqPriority.Search` | linux-2.6.18-xen.hg/block/cfq-iosched.c:826-845 | the search reaches a level with queues, if there is one |
| `CfqPriority.SearchLag` | linux-2.6.18-xen.hg/block/cfq-iosched.c:826-845 | a search never passes over a level that has queues |
| `CfqPriority.PickedWithinCycle` | linux-2.6.18-xen.hg/block/cfq-iosched.c:820-865 | for any number N of levels, a level that keeps having queues is picked within N(N+1)/2 picks, whatever the others do |
| `CfqPriority.FairShares` | linux-2.6.18-xen.hg/block/cfq-iosched.c:820-865 | with queues at all N levels throughout, from any point of the rotation, a cycle of N(N+1)/2 picks returns there and picks level p exactly N-p times |
| `Cfq.FindLevel` | linux-2.6.18-xen.hg/block/cfq-iosched.c:824-845 | the nested loops end, return -1 exactly when every level is empty, and otherwise find the level the rotation comes to next |
| `Cfq.Scheduler.NextPrioLevel` | linux-2.6.18-xen.hg/block/cfq-iosched.c:820-865 | the level found moves to the front of the current list, the rotation moves one slot past it, and no queue is lost or doubled |
| `CfqQueue.ChoiceIsOrder` | linux-2.6.18-xen.hg/block/cfq-iosched.c:340-424 | among requests at different sectors the preference is a strict total order, whatever the tunables |
| `CfqQueue.ChoiceMeans` | linux-2.6.18-xen.hg/block/cfq-iosched.c:340-424 | a synchronous request is preferred to any other; of one kind, the nearer ahead of the head, one behind within reach only if its penalised distance is less, and out of reach the lower |
| `CfqQueue.LiftedFromAnticipatory` | linux-2.6.18-xen.hg/block/cfq-iosched.c:335-424 | between requests of one kind, with the anticipatory scheduler's constants, it is that scheduler's preference |
| `CfqQueue.FoundIsQueued` | linux-2.6.18-xen.hg/block/cfq-iosched.c:429-450 | the next request found is another queued one, and none only if there is no other |
| `CfqQueue.FoundBeside` | linux-2.6.18-xen.hg/block/cfq-iosched.c:429-450 | the next request found is just below, just above or round the end from the given one, and preferred to every other such request |
| `CfqQueue.OneFewer` | linux-2.6.18-xen.hg/block/cfq-iosched.c:549-550 | the counter for the request's kind is positive when it is lowered |
| `CfqQueue.DispatchedParts` | linux-2.6.18-xen.hg/block/cfq-iosched.c:945-958 | a dispatch leaves a sound next request even while another request of the queue is out of the tree |
| `CfqQueue.DispatchedOk` | linux-2.6.18-xen.hg/block/cfq-iosched.c:945-958 | after a dispatch the queue is on a list iff its tree is non-empty iff it has a next request |
| `CfqQueue.DispatchedNext` | linux-2.6.18-xen.hg/block/cfq-iosched.c:945-958 | after a dispatch the next request is beside the dispatched one in sort order, and synchronous if any of those beside it is |
| `CfqQueue.LinkedNext` | linux-2.6.18-xen.hg/block/cfq-iosched.c:590-621 | a synchronous request displaces an asynchronous next one, an asynchronous never a synchronous one, and of one kind ahead of the head the nearer is next |
| `CfqQueue.RemovedOk` | linux-2.6.18-xen.hg/block/cfq-iosched.c:543-558 | after a removal the queue is on a list iff its tree is non-empty iff it has a next request, and its counters count its requests |
| `CfqLists.DropAll` | linux-2.6.18-xen.hg/block/cfq-iosched.c:529-538 | unlinking a queue takes it, and only it, off whichever list it is on |
| `CfqLists.Linked` | linux-2.6.18-xen.hg/block/cfq-iosched.c:460-513 | a queue linked into one list is then on exactly one |
| `Cfq.StoredGood` | linux-2.6.18-xen.hg/block/cfq-iosched.c:543-558 | a queue that empties is unlinked and counted out, and everything else stays in order |
| `Cfq.ServiceOrderKept` | linux-2.6.18-xen.hg/block/cfq-iosched.c:499-512 | a list in order of last service, never-served queues first, stays so when a queue is put in by the scan |
| `Cfq.PreemptedPlace` | linux-2.6.18-xen.hg/block/cfq-iosched.c:487-497 | a preempted queue is put one before the last entry, so at the front only if the list has at most one other queue |
| `Cfq.ResortedGood` | linux-2.6.18-xen.hg/block/cfq-iosched.c:460-513 | moving a queue between lists neither loses nor doubles it |
| `Cfq.ResortedPlace` | linux-2.6.18-xen.hg/block/cfq-iosched.c:469-485 | after it a real-time queue is on the current list, an idle one on the idle list, a best-effort one on the busy list while requests of it are in flight and else on the list of its level, and on no other; no other queue moves |
| `Cfq.ResortedInOrder` | linux-2.6.18-xen.hg/block/cfq-iosched.c:487-513 | unless preempted, it joins the busy list at the back and any other in order of last service |
| `Cfq.AddedNext` | linux-2.6.18-xen.hg/block/cfq-iosched.c:590-621 | what an insertion does to the queue's next request, with and without a request at the same sector |
| `Cfq.AddedPlace` | linux-2.6.18-xen.hg/block/cfq-iosched.c:519-527 | a queue that was on no list joins the one its class, level and requests in flight call for |
| `Cfq.AddedGood` | linux-2.6.18-xen.hg/block/cfq-iosched.c:583-609 | adding a request, alias or not, keeps every queue in order, on one list, and counted |
| `Cfq.RepositionedGood` | linux-2.6.18-xen.hg/block/cfq-iosched.c:611-618 | repositioning a front-merged request keeps every queue in order, on one list and counted, even when an alias empties the queue in between |
| `Cfq.DispatchedGood` | linux-2.6.18-xen.hg/block/cfq-iosched.c:945-958 | a dispatch keeps every queue in order, on one list and counted |
| `Cfq.Unlisted` | linux-2.6.18-xen.hg/block/cfq-iosched.c:583-609 | a queue is on no list exactly when it has no requests and exactly when it has no next request |
| `Cfq.RemainingStep` | linux-2.6.18-xen.hg/block/cfq-iosched.c:1111-1128 | draining a list takes out exactly what its queues held and leaves the others as they were |
| `Cfq.RemainingEnds` | linux-2.6.18-xen.hg/block/cfq-iosched.c:1130-1147 | with all lists drained, everything has gone out, every queue is empty and busy_queues is zero |
| `Cfq.Scheduler.constructor` | linux-2.6.18-xen.hg/block/cfq-iosched.c:2229-2290 | the empty scheduler, at the start of the rotation, meets the invariants |
| `Cfq.Scheduler.GetQueue` | linux-2.6.18-xen.hg/block/cfq-iosched.c:1446-1500 | a process without a queue gets an empty one, on no list, and nothing else changes |
| `Cfq.Scheduler.SetActive` | linux-2.6.18-xen.hg/block/cfq-iosched.c:867-901 | the queue made active has a request to serve: the first of the current list, else of the next level in the rotation, else one with requests in flight, else an idle one after the grace period; none is chosen only when there is none |
| `Cfq.Scheduler.CompletedRequest` | linux-2.6.18-xen.hg/block/cfq-iosched.c:1834-1874 | the completion lowers the in-flight count; a listed queue with none left in flight is marked served and placed by class and level; an active queue whose slice is over stops being active |
| `Cfq.Scheduler.DispatchInsert` | linux-2.6.18-xen.hg/block/cfq-iosched.c:945-958 | the request leaves its queue for the driver and is counted in flight; the next request is beside it in sort order, and synchronous if any of those beside it is |
| `Cfq.Scheduler.RemoveRequest` | linux-2.6.18-xen.hg/block/cfq-iosched.c:674-681 | the request is gone and all invariants hold |
| `Cfq.Scheduler.MakeRoom` | linux-2.6.18-xen.hg/block/cfq-iosched.c:593-598 | the alias loop ends with the sector free |
| `Cfq.Scheduler.InsertRequest` | linux-2.6.18-xen.hg/block/cfq-iosched.c:1816-1829 | the request is queued last in the FIFO, becomes next as its kind and place call for, a queue that was on no list is placed by class, level and requests in flight, and all invariants hold |
| `Cfq.Scheduler.Reposition` | linux-2.6.18-xen.hg/block/cfq-iosched.c:611-618 | the request is at its new sector and all invariants hold |
| `Cfq.Scheduler.Resort` | linux-2.6.18-xen.hg/block/cfq-iosched.c:460-513 | the queue is on the list named for its class, level and requests in flight, at the place its last service calls for, and no other queue moves |
| `Cfq.Scheduler.SliceExpired` | linux-2.6.18-xen.hg/block/cfq-iosched.c:762-800 | the left-over slice and the time of service are recorded, a listed queue is placed by class, level and requests in flight, no other queue changes or moves, and there is no active queue |
| `Cfq.Scheduler.ExpireAndSelect` | linux-2.6.18-xen.hg/block/cfq-iosched.c:1051-1054 | when the active queue's slice ends and another is chosen, a best-effort queue with requests in flight is chosen again only if no other queue is on the current list or on any level |
| `Cfq.Scheduler.DrainQueue` | linux-2.6.18-xen.hg/block/cfq-iosched.c:1120-1124 | one queue is emptied, its FIFO included, and its requests counted |
| `Cfq.Scheduler.DrainList` | linux-2.6.18-xen.hg/block/cfq-iosched.c:1111-1128 | every queue of a list is emptied and the list with it |
| `Cfq.Scheduler.ForcedDispatch` | linux-2.6.18-xen.hg/block/cfq-iosched.c:1130-1147 | every queue is emptied, every queued request goes out, the number returned is the number queued, and no queue is busy |
| `Cbc.EncryptionMeetsStandard` | linux-2.6.18-xen.hg/crypto/cipher.c:182-206 | one-pass encryption is the definition in section 6.2 of NIST SP 800-38A, block by block |
| `Cbc.StandardDetermines` | linux-2.6.18-xen.hg/crypto/cipher.c:182-206 | nothing else meets that definition |
| `Cbc.DecryptionRecovers` | linux-2.6.18-xen.hg/crypto/cipher.c:182-241 | decryption of an encryption is the message, and both leave the same chaining value |
| `Cbc.ProcessSplit` | linux-2.6.18-xen.hg/crypto/cipher.c:93-155 | cutting a message between blocks and carrying the chaining value over changes nothing, in either direction |
| `Cbc.ChainedIsProcess` | linux-2.6.18-xen.hg/crypto/cipher.c:93-155 | having produced an output and a chaining value from which any continuation comes out right is the same as having produced the one-pass result |
| `Cbc.NextUnread` | linux-2.6.18-xen.hg/crypto/cipher.c:61-86 | in place or between separate buffers, bytes not yet processed have not been overwritten |
| `Cbc.RunStep` | linux-2.6.18-xen.hg/crypto/cipher.c:182-241 | writing the next block advances a run by one block |
| `Cbc.RunJoins` | linux-2.6.18-xen.hg/crypto/cipher.c:93-155 | a run that starts where another stopped continues it |
| `Cbc.EncryptBlock` | linux-2.6.18-xen.hg/crypto/cipher.c:196-203 | one block: ciphertext in the destination and in the chaining value |
| `Cbc.CbcProcessEncrypt` | linux-2.6.18-xen.hg/crypto/cipher.c:182-206 | as many whole blocks as the run holds are the one-pass encryption, in place or not; nothing else in the destination changes |
| `Cbc.DecryptBlockInPlace` | linux-2.6.18-xen.hg/crypto/cipher.c:227-238 | through the side buffer, one block is decrypted over itself |
| `Cbc.DecryptBlockAcross` | linux-2.6.18-xen.hg/crypto/cipher.c:227-238 | one block is decrypted straight into the destination |
| `Cbc.CbcProcessDecrypt` | linux-2.6.18-xen.hg/crypto/cipher.c:208-241 | as many whole blocks as the run holds are the one-pass decryption, in place or not |
| `Cbc.CryptFast` | linux-2.6.18-xen.hg/crypto/cipher.c:61-86 | a run through the page buffer or directly has the same effect |
| `Cbc.CryptSlow` | linux-2.6.18-xen.hg/crypto/cipher.c:40-59 | a block gathered from two pages has the same effect as one that lies in a page |
| `Cbc.CryptTurn` | linux-2.6.18-xen.hg/crypto/cipher.c:129-143 | each turn of the outer loop makes progress of whole blocks |
| `Cbc.Crypt` | linux-2.6.18-xen.hg/crypto/cipher.c:93-155 | refuses a length that is not a multiple of the block size with -EINVAL and without touching anything; otherwise, however pages, alignment and memory cut the message, the result is the one-pass result |
| `Cbc.RoundTrip` | linux-2.6.18-xen.hg/crypto/cipher.c:93-155 | encrypting and decrypting in place, each cut its own way, restores the memory and leaves equal chaining values |

## Left out

- Tagged ordering, tag invalidation and special (non file system) requests in the barrier protocol: they rely on device ordering or bypass the colours.
- Merging inside the barrier model, plugging, and the upkeep of the sort boundary: they do not change which request may cross which.
- Segment counting and scatter lists in ll_rw_blk.c: counts over chained merges are not an invariant of the code.
- The tail records of buddy chunks: written but never read by the allocator.
- BuddyAllocator.PageAllocator.constructor: requires a number of pages at least eight past a multiple of 32768, because for any other the bitmap lacks the bits that initialisation writes, as BitmapReach states.
- BuddyAllocator.InitialBits: requires the same, for the same reason.
- Wrap-around of 32-bit counters such as the deadline batch counter: counters are natural numbers.
- A merge of two requests into one that starts where the absorbed one did: the code would then remove a request that is no longer queued.
- The end-sector hashes of the anticipatory and CFQ schedulers: the same code as the deadline hash, modelled there.
- Expiry order of the anticipatory FIFOs: the same code as in the deadline scheduler.
- Anticipation, the adjustment of write batch sizes, idle and slice timers, preemption decisions, io_context reference counts: heuristics and lifetimes that the results hold for in any case.
- The hash of CFQ queues, request allocation limits, and the choice of a queue by process.
- unbind_all_ports, binding of handlers, and the effects of handlers other than through steps of the protocol.
- EventGuest.Guest.ForceCallback: takes raises between the turns of its loop only; raises within a turn are covered by the interleaving model.
- Stack switching, interrupt flags, and the debugging threads of sched.c.
- The block ciphers themselves, the other chaining modes, and the internals of the scatter walk: the cipher is any length-preserving function, with an inverse where decryption is concerned.
- Xenbus, hypercall, sysfs and ioctl plumbing, network and file system front ends: foreign calls, or simpler members.
