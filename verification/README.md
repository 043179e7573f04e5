# greenthreads: a verified model

A Dafny model of the scheduling runtime *greenthreads*: its fiber lifecycle and runtime
protocol, its fiber-aware synchronization primitives, its priority and work-stealing
schedulers, its deadlock detector and its event ring.

How the pieces are modelled:

- **Concurrency.** Every region under one mutex, and every atomic operation, is one step.  A
  run is any sequence of steps, so a lemma about all sequences is a lemma about every
  interleaving.  A step that is not enabled changes nothing.
- **Synchronization** (`Mutex`, `RWMutex`, `WaitGroup`, `Semaphore`, `Channel`, with the
  queue lemmas in `Tickets` and `Sequences`).  A call is known by its ticket, its number in
  lock order.  Closing a waiter's ready channel is moving its ticket to the log of granted
  calls, so "granted at most once" is "listed at most once".  What callers are told is tied to
  those logs step by step (the lemmas named `...Tells`).  Beside each step function
  stands a class with the source's fields whose methods are proved to carry out those steps.
- **Runtime** (`Fiber`, `Registry`, `Runtime`, `RuntimeInvariant`, `RuntimeTheorems`,
  `RuntimeSlots`, `RuntimeJoin`, `RuntimeStart`, `RuntimeSpawn`, `RuntimeAdmission`, `RuntimeRest`,
  `RuntimeProgress`, `RuntimeRegions`, `RuntimeFibers`, `RuntimeWitness`, `RuntimeFalseAlarm`).  A
  transition system with one record per Spawn call: where the call stands, the fiber's flags in the shared maps, and where its
  goroutine stands.  Start, Stop (timed out or not), the execution loop, completion and Reset
  are further actions.  The classes in `Registry` and
  `Fiber` are the in-place form of the shared maps and of a fiber.  The transition system does
  not call them: `RuntimeRegions` and `RuntimeFibers` prove that its steps act as the functions
  do that the classes are proved against.
- **Priority scheduler** (`Heap`, `PriorityQueue`, `PriorityRuns`, `Starvation`, `DrainOrder`,
  `Priority`).  container/heap's algorithms are functions that give the new arrangement and
  the positions they swap; the queue's methods are the in-place loops, proved equal to them,
  index fields included.  Results about runs hold for any heap that returns a first entry,
  and every scheduler method is proved to be a step of such a run.
- **Work stealing** (`WorkStealing`, `RoundRobin`, `WorkStealingRuns`, `BoundedWait`,
  `WorkStealingScheduler`; `Completions` for the record both schedulers keep).  The random
  victim order is a parameter, so results hold for every shuffle.  These have one caller at a
  time; `WorkStealingConcurrent` and `WorkStealingHonest` have any number, with one step per
  worker lock.
- **Detector and events** (`Detector`, `Events`).  Scans carry their time stamps; the ring
  buffer is an array compared with a ghost log.

Where code and documentation disagree the code is followed: docs/schedulers.md:90 says that
lower numbers run first, internal/scheduler/priority.go:287-292 runs higher numbers first.

Some expected properties do not hold of the code as they stand.  Each has a failing run and
the exact condition under which it holds:

- Reset keeps the fiber counter exact if and only if nothing but the main fiber is registered
  (`ResetExactIffNothingRegistered`; `ResetAfterTimeoutLeaks` is a run that leaks).
- Spawn can succeed for a fiber that is never dispatched (`SpawnCanStrand`).  That happens if
  and only if a Start opens the drain gate while the fiber, off the queue after a Stop, is not
  yet committed (`AdmittedIsServedIff`).
- The detector's no-progress test can be met although fibers still move: by a fiber that runs on
  after its Spawn was rolled back (`RolledBackFiberIsMissed`) and by a blocked one left from a
  Stop that timed out (`LeftOverFiberIsMiscounted`).  It is right if and only if nothing stirs
  (`RestsIffNothingStirs`), which with no ready fiber means that no fiber of a rolled-back Spawn
  does (`NoProgressIsReal`).
- The heap's index fields can go stale when fibers finish in the queue.  Next keeps them right
  if and only if its swaps touch every position behind the first finished fiber
  (`NextKeepsPositionsIff`).  BlockFiber removes its own fiber, another one, or panics exactly
  as the field of the fiber's item says, and all three happen (`BlockingTakesAnother`,
  `BlockingPanics`).  UpdatePriority can leave the heap out of order (`RaisingBreaksOrder`)
  until the next Next rebuilds it; it keeps the order if and only if Fix at the field suffices
  (`FixSufficesIff`).
- Aging stops at priority 2^30.  The anti-starvation bound holds if and only if arrivals cannot
  catch up at the cap in time (`NoStarvationIff`; `PassedOver` is the run otherwise), and the
  drain order if and only if no listed fiber is displaced before it is due (`DrainInOrderIff`,
  with the run in its proof).
- The work-stealing wait is bounded if and only if the 64-bit round-robin counter keeps the
  rounds even (`BoundedWaitIff`, `StillWaiting`).
- With callers in parallel a work-stealing Next can fail with work queued all the while
  (`FailsWithWorkAround`); it cannot if and only if there is one worker (`HonestIffOneWorker`).
- A release of a bounded semaphore by somebody who holds nothing costs a holder its release
  (`StrayReleaseCostsTheHolder`; `ReleaseDiscardedIffAllReturned` says exactly when one is lost).

## Model

| member | source | states |
|---|---|---|
| `RuntimeTheorems.CounterIsExact` | internal/runtime/runtime.go:220-282 | in every reachable state of every interleaving, activeFiberCount = registered non-main fibers + calls counted but not registered (over-cap ones included) + removals not yet subtracted; it is never negative and the registered fibers never exceed the cap |
| `RuntimeTheorems.SubtractedExactlyOnce` | internal/runtime/runtime.go:257-282 | the counter is lowered at most once per fiber, whoever of completion, reap, rollback and cap undo comes first, and exactly once for each counted fiber when all is over |
| `RuntimeTheorems.StoppedAndQuietIsEmpty` | internal/runtime/runtime.go:413-438 | after Stop returned and before a new Start, once every Spawn returned and every dispatched fiber finished: counter 0, at most the main fiber registered, queue empty |
| `RuntimeTheorems.SpentForEver` | internal/runtime/runtime.go:484-523 | a fiber done with in one run is never dispatched afterwards, whatever happens later |
| `RuntimeTheorems.NoFiberSurvivesTheRun` | internal/runtime/runtime.go:413-438 | every fiber of a stopped and quiet runtime is such a fiber, so none is dispatched in a later run |
| `RuntimeJoin.StopJoinsUnlessTimedOut` | internal/runtime/runtime.go:413-455 | over every run in which no Stop times out, no goroutine of an earlier run is live, and while the runtime is stopped no goroutine of any run is |
| `RuntimeJoin.NoSlotIsLost` | internal/runtime/runtime.go:571-650 | over every run, as long as the current run is not cancelled its loop is at work and not draining, and every slot it counts belongs to a live goroutine or to a result not yet received |
| `RuntimeSpawn.CapRefusesIff` | internal/runtime/runtime.go:220-225 | over every run, a call seen running is told that the cap is reached if and only if a cap is set and, at its counting step, registered fibers, calls about to register and removals not yet subtracted are that many |
| `RuntimeSpawn.EntryRefusesIff` | internal/runtime/runtime.go:211-218 | it is told that the runtime is not started if and only if none is running at the step that looks |
| `RuntimeSpawn.SchedulerRefusesIff` | internal/runtime/runtime.go:235-241 | it is told that scheduling failed if and only if the scheduler is stopped at the step that looks |
| `RuntimeSpawn.CommitRefusesIff` | internal/runtime/runtime.go:243-282 | whatever others do between its steps, a scheduled call is rolled back if and only if the run whose context it read is cancelled when it looks, or the drain gate is closed when it would commit |
| `RuntimeSpawn.SpawnAloneAnswers` | internal/runtime/runtime.go:200-282 | in every state of every run, a Spawn that nobody interferes with succeeds exactly when the runtime runs, has room and is not stopping, its fiber then registered, committed, queued and counted; refused, it leaves neither fiber nor count behind |
| `RuntimeStart.StartBringsUp` | internal/runtime/runtime.go:310-385 | in every state of every run with no lifecycle call in progress, Start brings a stopped runtime up, also after a Reset: a new run, its loop, an open gate, a main fiber and a running scheduler; on a running one it changes nothing |
| `RuntimeStart.SchedulerFollowsLifecycle` | internal/runtime/runtime.go:413-438 | over every run, the scheduler refuses fibers exactly between Stop's call of it and its clearing, and runs exactly from Start's call to Stop's |
| `RuntimeStart.ResetClears` | internal/runtime/runtime.go:534-565 | Reset of a stopped runtime with nothing but the main fiber registered leaves no main fiber, an open gate and nothing registered, committed or queued |
| `RuntimeInvariant.StepKeepsInv` | internal/runtime/runtime.go:200-687 | every step of Spawn, the loop, a goroutine, Start, Stop and a permitted Reset keeps lifecycle, record, counter and slot invariants together |
| `RuntimeSlots.AtMostNumWorkersInFlight` | internal/runtime/runtime.go:571-650 | at most numWorkers fiber functions of one run are in flight in any reachable state |
| `RuntimeSlots.SlotExhaustionIsReal` | internal/runtime/deadlock.go:105-129 | in every reachable state of a running runtime in which a scan finds at least numWorkers blocked fibers, these hold all the slots and nobody else is in flight if and only if no fiber is left over from a timed-out Stop; and then none runs |
| `RuntimeSlots.StuckUntilOutsideHelp` | internal/runtime/runtime.go:571-650 | with all slots so held no dispatch and no fiber step happens in any continuation without an outside wake-up or a new Start |
| `RuntimeRegions.SpawnRegions` | internal/runtime/runtime.go:231-282 | Spawn's lock regions act on the fiber map, the admitted set and the drain gate exactly as the registry operations do; no other Spawn step touches them |
| `RuntimeRegions.CompletionRegion` | internal/runtime/runtime.go:679-686 | completion removes its fiber and decides on the decrement by whether it was still registered |
| `RuntimeRegions.ReapRegion` | internal/runtime/runtime.go:489-515 | the reap claims exactly the committed, never dispatched, non-main fibers and closes the drain gate |
| `RuntimeRegions.ResetExactIffNothingRegistered` | internal/runtime/runtime.go:534-565 | Reset of a stopped runtime keeps the counter exact if and only if no fiber but the main one is registered |
| `RuntimeWitness.ResetAfterTimeoutLeaks` | internal/runtime/runtime.go:534-565 | a run from a new runtime to a Stop that times out, after which Reset leaves the counter at 1 with nothing left to lower it |
| `RuntimeAdmission.AdmittedIsServedIff` | internal/runtime/runtime.go:195-282 | over every run, a registered fiber whose Spawn returned without error is queued, held by the loop or dispatched if and only if no Start opened the drain gate while the fiber was off the queue and its call had not committed; the one instant between a Stop's clearing and its reap is apart |
| `RuntimeAdmission.NeverDispatched` | internal/runtime/runtime.go:484-523 | a fiber off the queue that was not dispatched is not dispatched in any continuation |
| `RuntimeWitness.SpawnCanStrand` | internal/runtime/runtime.go:243-282 | a run in which exactly that Start happens: Spawn succeeds for a fiber that is registered and in no queue |
| `RuntimeWitness.StrandedUsesUpTheCap` | internal/runtime/runtime.go:212-225 | with a cap of one the next Spawn is then refused although nothing runs or is queued |
| `RuntimeProgress.NoProgressIsReal` | internal/runtime/deadlock.go:118-129 | in every reachable state that meets the no-progress test: with no ready fiber, no fiber enters, leaves or moves in its function in any continuation without a Spawn, an outside wake-up or a new run if and only if no fiber of a rolled-back Spawn can still move; with all slots taken that is so whenever no fiber is left from a timed-out Stop |
| `RuntimeRest.RestsIffNothingStirs` | internal/runtime/runtime.go:571-650 | in every reachable state, functions rest in all such continuations if and only if no fiber runs, is being started, is held by the loop, or is queued while the loop can still get to it: it is choosing, or the scheduler is open and a slot is free, freed by a result that is there, or by a goroutine past its function |
| `RuntimeFalseAlarm.RolledBackFiberIsMissed` | internal/runtime/runtime.go:264-280 | a run of two workers to a state that meets the test although a fiber whose Spawn returned an error runs on, and can wake the blocked one |
| `RuntimeFalseAlarm.LeftOverFiberIsMiscounted` | internal/runtime/deadlock.go:118-129 | a run of one worker to a state that meets the test because of a blocked fiber left from a timed-out Stop, although the loop can dispatch the ready one |
| `RuntimeRest.RestUntilOutsideHelp` | internal/runtime/deadlock.go:118-129 | once nothing stirs, nothing stirs again and functions rest until help comes from outside |
| `RuntimeProgress.CountIsScan` | internal/runtime/deadlock.go:102-117 | counting over a snapshot of the fiber map gives the number of registered fibers in each state |
| `Registries.FiberRegistry.CommitOrRollBack` | internal/runtime/runtime.go:264-282 | commits only while the gate is open; a rollback reports the fiber as present exactly if no other caller claimed it before, and then claims it: every registered fiber is claimed by one caller at most |
| `Registries.FiberRegistry.RemoveCompleted` | internal/runtime/runtime.go:679-683 | a completion is told to lower the counter exactly if nobody claimed the fiber before, and nobody can afterwards |
| `Registries.FiberRegistry.ReapPending` | internal/runtime/runtime.go:489-515 | the in-place scan claims exactly what the one-step reap claims, nothing claimed before, and leaves nothing pending behind |
| `Registries.FiberRegistry.Reset` | internal/runtime/runtime.go:556-560 | every fiber still registered is abandoned: nobody can claim it any more |
| `Fibers.RunsAtMostOnce` | internal/fiber/fiber.go:118-158 | over every sequence of lock regions of one fiber, its function is claimed for execution at most once and never after completion |
| `RuntimeFibers.EnteredAtMostOnce` | internal/fiber/fiber.go:118-158 | over every run of the runtime a fiber is what the calls made on it leave of a new one, and its function is entered at most once, whatever is rolled back, stopped, restarted or reset |
| `Fibers.FiberObject.EnterRun` | internal/fiber/fiber.go:118-132 | told to execute the function exactly if no such call was made before, whatever other calls were |
| `Mutex.HandoffInArrivalOrder` | internal/sync/mutex.go:31-150 | in every reachable state: locked iff owned, unlocked means no waiters, the owner is the last granted call, and granted calls followed by the queue are the calls in lock order minus the cancelled ones |
| `Mutex.MutualExclusion` | internal/sync/mutex.go:31-150 | over every run, of the calls that got the lock, at once or while parked, at most one has not been followed by a successful Unlock of its fiber |
| `Mutex.AcquiredEnters` | internal/sync/mutex.go:31-106 | over every run, a Lock or TryLock told that it acquired got the lock at that step, and a parked call told so on its re-check got it at an earlier one |
| `Mutex.LockTells` | internal/sync/mutex.go:31-124 | Lock and TryLock report acquired exactly when every earlier call is done with, and exactly when the call itself is granted and holds the lock; parked exactly when it joins the queue under its own ticket |
| `Mutex.UnlockTells` | internal/sync/mutex.go:127-150 | Unlock succeeds exactly for the fiber whose call holds the lock, which then goes to the oldest waiting call or to nobody; otherwise it panics and changes nothing |
| `Mutex.CancelIsFinal` | internal/sync/mutex.go:73-106 | at any point of any run a parked call whose context is done was granted exactly once and stays so, or is never granted |
| `Mutex.GrantedWithinPosition` | internal/sync/mutex.go:127-150 | a call queued behind k others is granted by the (k+1)-th release, whatever arrives or cancels |
| `Mutex.FiberMutex.Lock` | internal/sync/mutex.go:31-72 | takes the free lock for the caller and says so, or joins the end of the queue, leaves the owner and says so |
| `Mutex.FiberMutex.TryLock` | internal/sync/mutex.go:112-124 | takes the lock only when free |
| `Mutex.FiberMutex.Unlock` | internal/sync/mutex.go:127-150 | hands the lock to the head of the queue, or frees it; panics, changing nothing, for a non-owner |
| `Mutex.FiberMutex.Cancel` | internal/sync/mutex.go:76-92 | the re-check under the lock: success if already granted, otherwise leaves the queue |
| `Sequences.RemoveFirst` | internal/sync/mutex.go:97-106 | the splice loop removes the waiter's first entry and keeps the order of the rest |
| `Tickets.BookSettles` | internal/sync/mutex.go:73-106 | a call whose context is done wins if it was granted and leaves if it waited, and either is for good |
| `RWMutex.ExclusionAndNoStranding` | internal/sync/mutex.go:205-420 | in every reachable state: a writer excludes readers, readers counts the outstanding read holds, a free lock has both queues empty, write grants follow arrival order, and every read call was granted once, waits or was cancelled |
| `RWMutex.LockTells` | internal/sync/mutex.go:205-351 | a read call acquires at once exactly when every write call is done with, so readers share; a write call exactly when every call is; each is told what happened to it |
| `RWMutex.UnlockTells` | internal/sync/mutex.go:284-420 | a release succeeds exactly for a holder; the last one hands the lock to the oldest waiting writer or, without one, to every waiting reader; another one grants nothing |
| `RWMutex.CancelTells` | internal/sync/mutex.go:245-385 | a re-check grants nothing to anybody and takes just its own call off its queue |
| `RWMutex.CancelReadIsFinal` | internal/sync/mutex.go:245-278 | a read call whose context is done was granted exactly once, or never is |
| `RWMutex.CancelWriteIsFinal` | internal/sync/mutex.go:352-385 | the same for a write call |
| `RWMutex.WaitShrinks` | internal/sync/mutex.go:205-330 | while a writer is queued no step raises the reader count, and each release uses up its remaining bound |
| `RWMutex.WriterGrantedWithinBound` | internal/sync/mutex.go:284-420 | a writer behind k others is granted within k + readers further releases (k + 1 under a writer), whatever arrives or cancels |
| `RWMutex.FiberRWMutex.RLock` | internal/sync/mutex.go:205-244 | reads at once only without a writer, held or queued |
| `RWMutex.FiberRWMutex.RUnlock` | internal/sync/mutex.go:284-309 | lowers the count and passes the lock on when it reaches zero |
| `RWMutex.FiberRWMutex.Lock` | internal/sync/mutex.go:312-351 | writes at once only when free |
| `RWMutex.FiberRWMutex.Unlock` | internal/sync/mutex.go:388-407 | passes the lock to the next writer or to all waiting readers; refuses a non-owner |
| `RWMutex.FiberRWMutex.GrantWriter` | internal/sync/mutex.go:409-420 | gives the lock to the head writer, if any |
| `RWMutex.FiberRWMutex.CancelWrite` | internal/sync/mutex.go:352-385 | leaves the writer queue and changes nothing else, unless granted already |
| `WaitGroup.CounterIsSumOfAccepted` | internal/sync/waitgroup.go:30-54 | in every reachable state the counter is the sum of accepted deltas, within [0, maxInt]; waiters exist only while it is positive and return in call order |
| `WaitGroup.AddIsExact` | internal/sync/waitgroup.go:30-54 | Add is accepted exactly when the true sum is in range and it does not rise under waiters; a refused one changes nothing |
| `WaitGroup.WaitTells` | internal/sync/waitgroup.go:68-105 | Wait returns at once exactly when the accepted deltas sum to zero, and otherwise parks under its own ticket |
| `WaitGroup.WokenExactlyAtZero` | internal/sync/waitgroup.go:46-52 | a waiter is woken by exactly the Add that reaches zero, which wakes all |
| `WaitGroup.WaitReturnsIffZeroReached` | internal/sync/waitgroup.go:68-105 | a parked Wait returns if and only if the counter reaches zero at some later point, even if it rose again |
| `WaitGroup.CancelIsFinal` | internal/sync/waitgroup.go:106-139 | a wait whose context is done was released exactly once, or never is |
| `WaitGroup.FiberWaitGroup.Add` | internal/sync/waitgroup.go:30-54 | the overflow-safe guards on machine integers and the wake-all loop do what the step says |
| `WaitGroup.FiberWaitGroup.Wait` | internal/sync/waitgroup.go:68-105 | returns at once at zero, otherwise joins the queue |
| `Semaphore.PermitsAreConserved` | internal/sync/waitgroup.go:180-303 | over every run: permits + grants + discarded releases = initial + releases; with no maximum nothing is discarded; permits are available only without waiters; cancelled acquires consume nothing |
| `Semaphore.AcquireTells` | internal/sync/waitgroup.go:192-281 | Acquire and TryAcquire report success exactly when fewer permits were granted than the initial count and the kept releases provide, and exactly when the call is granted and uses one up; otherwise Acquire parks and TryAcquire changes nothing |
| `Semaphore.ReleaseDiscardedIffAllReturned` | internal/sync/waitgroup.go:283-303 | a bounded semaphore discards a release exactly when every permit granted was given back by an earlier release that was not discarded, in every state |
| `Semaphore.StrayReleaseCostsTheHolder` | internal/sync/waitgroup.go:283-303 | a release by somebody who holds nothing makes the holder's own release the one discarded |
| `Semaphore.AvailablePlusHeldIsMax` | internal/sync/waitgroup.go:180-303 | with releases only by holders, permits + held = maximum, always |
| `Semaphore.CancelIsFinal` | internal/sync/waitgroup.go:232-265 | an acquire whose context is done was granted exactly once, or never is |
| `Semaphore.FiberSemaphore.Acquire` | internal/sync/waitgroup.go:192-231 | takes a permit or joins the queue |
| `Semaphore.FiberSemaphore.Release` | internal/sync/waitgroup.go:283-303 | wakes the oldest waiter, or adds a permit up to the maximum |
| `Channel.FifoConservation` | internal/sync/channel.go:58-204 | over every run: surviving sends in lock order = delivered ++ buffer ++ queued senders' values, buffer within capacity, receives served in order, one per value |
| `Channel.CallersFifo` | internal/sync/channel.go:58-204 | over every run, take the values that callers passed to sends told sent or parked, in call order, and drop the withdrawn ones: the receive served k-th is told the k-th of these, at once or on its re-check, and never another |
| `Channel.SendsArePassedIn` | internal/sync/channel.go:58-164 | the log of sends is, call by call, the values passed to sends that were told sent or parked |
| `Channel.SendTells` | internal/sync/channel.go:58-130 | a send on an open channel is told sent exactly when a receiver waits or fewer values than the capacity are pending, and is then accepted; otherwise it parks, or is told full or that it needs a fiber; on a closed one it is told so |
| `Channel.ReceiveTells` | internal/sync/channel.go:168-242 | a receive is told the oldest pending value exactly when one is pending; otherwise empty, closed, or parked under its own ticket |
| `Channel.WithdrawnTells` | internal/sync/channel.go:131-372 | calls are withdrawn only from the queues: one by its own context, all by Close, which keeps the buffer |
| `Channel.ReceivedIsDelivered` | internal/sync/channel.go:168-204 | the value that Receive or TryReceive returns at once is the one the delivery log holds for that call |
| `Channel.WaitingShape` | internal/sync/channel.go:62-93 | receivers wait only on an empty open channel without senders, senders only on a full open one |
| `Channel.ClosedDrainsInOrder` | internal/sync/channel.go:334-372 | after Close both queues stay empty, no send is accepted, and the buffered values are still delivered in order |
| `Channel.ClosedStep` | internal/sync/channel.go:168-204 | a receive on a closed channel yields the head of the buffer, and the closed error exactly when it is empty |
| `Channel.CancelSendIsFinal` | internal/sync/channel.go:131-164 | a cancelled send was accepted exactly once, or its value is never delivered |
| `Channel.CancelReceiveIsFinal` | internal/sync/channel.go:243-276 | a cancelled receive was served exactly once and reports that value, or never is served |
| `Channel.FiberChannel.Send` | internal/sync/channel.go:58-130 | direct handoff before buffer before queue, of the value passed in; errors when closed or without a fiber to park |
| `Channel.FiberChannel.TrySend` | internal/sync/channel.go:283-307 | the same without parking |
| `Channel.FiberChannel.Receive` | internal/sync/channel.go:168-242 | buffer first, refilled from the sender queue, then a queued sender, then parks |
| `Channel.FiberChannel.TryReceive` | internal/sync/channel.go:310-332 | the same without parking |
| `Channel.FiberChannel.Admit` | internal/sync/channel.go:334-345 | moves the oldest queued sender into a free slot |
| `Channel.FiberChannel.Close` | internal/sync/channel.go:349-372 | rejects all waiters once, in two loops |
| `Heaps.SiftUpOrders` | internal/scheduler/priority.go:287-299 | sifting up restores heap order if only the edge above the item is wrong |
| `Heaps.SiftDownOrders` | internal/scheduler/priority.go:287-299 | sifting down restores the order below, and above if it moved anything |
| `Heaps.FixOrders` | internal/scheduler/priority.go:202-202 | Fix restores heap order if it is wrong only at the position |
| `Heaps.HeapifiedOrders` | internal/scheduler/priority.go:336-338 | Init makes a heap of any arrangement |
| `Heaps.BuildKeepsHeap` | internal/scheduler/priority.go:336-338 | and leaves a heap untouched |
| `Heaps.PopTakesRoot` | internal/scheduler/priority.go:309-318 | Pop takes exactly the root, which no item precedes, and keeps heap order |
| `Heaps.RemoveTakesOne` | internal/scheduler/priority.go:212-222 | Remove takes exactly the item at the position and keeps heap order |
| `PriorityQueues.PriorityQueue.Up` | internal/scheduler/priority.go:287-299 | the in-place loop gives the arrangement of the recursive definition and rewrites exactly the index fields at swapped positions |
| `PriorityQueues.PriorityQueue.Down` | internal/scheduler/priority.go:287-299 | the same for sifting down, with the report whether anything moved |
| `PriorityQueues.PriorityQueue.Init` | internal/scheduler/priority.go:336-338 | the same for the loop of Init, ending in heap order |
| `PriorityQueues.PriorityQueue.Push` | internal/scheduler/priority.go:301-307 | adds the item with its position, keeps heap order and index = position |
| `PriorityQueues.PriorityQueue.Pop` | internal/scheduler/priority.go:309-318 | removes a first item, keeps heap order and index = position |
| `PriorityQueues.PriorityQueue.Remove` | internal/scheduler/priority.go:212-222 | removes exactly the item at the position, keeps heap order and index = position |
| `PriorityQueues.PriorityQueue.Rekey` | internal/scheduler/priority.go:195-207 | changes exactly the item's key and reports the panic of Fix beyond the end; fixed at or behind the item, a heap stays one exactly if the stated condition on the old queue holds; index fields never fall below positions |
| `PriorityQueues.FixSufficesIff` | internal/scheduler/priority.go:195-207 | a heap with a new key at k, fixed at i >= k, is in order if and only if i is k, or the key fits between parent and children, or i is a first child that precedes the key and whose own children do not |
| `PriorityQueues.PriorityQueue.RemoveFinished` | internal/scheduler/priority.go:323-339 | keeps exactly the unfinished items, in heap order; index fields move with their items and are rewritten exactly where Init swaps |
| `PriorityQueues.PriorityQueue.AgeAll` | internal/scheduler/priority.go:342-351 | raises every key below the cap by one and rebuilds the heap |
| `PriorityQueues.StaleFromFirstFinished` | internal/scheduler/priority.go:323-335 | compaction leaves index = position exactly at the positions before the first finished fiber |
| `PriorityQueues.NextKeepsPositionsIff` | internal/scheduler/priority.go:59-89 | Next keeps index = position if and only if the swaps of its Init, aging and Pop touch every remaining position from the first finished fiber on |
| `PriorityQueues.NextKeepsPositionsUnlessBehind` | internal/scheduler/priority.go:59-89 | as can be seen beforehand: it does when no unfinished fiber, but perhaps the last, stands behind a finished one, and so when nothing queued has finished |
| `Starvation.NoStarvationIff` | internal/scheduler/priority.go:59-102 | with arriving and updated priorities at most P, a fiber queued at p is returned within 100*max(0, P-p+1) + n successful Next calls, n the queue length and a the pop count by then, in every run, if and only if P plus the agings in the next n pops stays below the cap or p is above both the cap and P |
| `Starvation.WaitsLessThanQueue` | internal/scheduler/priority.go:59-102 | once above every arriving priority, a fiber is overtaken fewer times than the queue is long |
| `Starvation.PassedOver` | internal/scheduler/priority.go:94-102 | otherwise a run in which it is passed over for all of those calls, for every such a, n, P and p |
| `DrainOrder.DrainInOrderIff` | internal/scheduler/priority.go:59-102 | for every queue, every way of draining m fibers returns them in the order of a sorted listing, each as aged by then, if and only if in no sorted listing a fiber is caught up with at the cap, by the time it is due, by one listed behind it that is not younger and is not the same fiber queued again with the key due |
| `DrainOrder.DisplacedIffOvertaken` | internal/scheduler/priority.go:59-102 | with each fiber queued once that can be read off any one sorted listing: no listed fiber is caught up with at the cap by one listed behind it, not younger, by the time it is due |
| `DrainOrder.AgingKeepsOrderIff` | internal/scheduler/priority.go:94-102 | d agings keep two fibers in order if and only if the second does not catch up with the first at the cap, not being younger |
| `DrainOrder.NotOvertakenBelowCap` | internal/scheduler/priority.go:94-102 | priorities that aging cannot carry past the cap meet that condition |
| `DrainOrder.DrainIsListedOrder` | internal/scheduler/priority.go:354-366 | with distinct keys and nothing overtaken a drain returns exactly the listed run queue |
| `DrainOrder.SortedIsUnique` | internal/scheduler/priority.go:354-366 | two sorted permutations with distinct keys are equal |
| `Priority.PriorityScheduler.Schedule` | internal/scheduler/priority.go:32-56 | inserts exactly the fiber; refused when stopped |
| `Priority.PriorityScheduler.Next` | internal/scheduler/priority.go:59-89 | stopped and no-fibers errors exactly when they apply; otherwise returns a first entry of the unfinished queue, aged on each hundredth pop, and leaves the rest in heap order whatever the order was before, with index fields exactly as computed |
| `Priority.PriorityScheduler.BlockFiber` | internal/scheduler/priority.go:107-119 | not queued, removed or panicking exactly as the index field of the fiber's item says; what is removed is the fiber's own entry if and only if that field is its position, each fiber being queued once; a panic changes nothing |
| `Priority.PriorityScheduler.UnblockFiber` | internal/scheduler/priority.go:123-140 | takes the oldest blocked entry off and queues the fiber with its priority of that moment; error when there is none |
| `Priority.PriorityScheduler.MarkCompleted` | internal/scheduler/priority.go:146-171 | counts a fiber that is not on record, records it and removes its first entry |
| `Completions.Record` | internal/scheduler/priority.go:152-163 | the record holds the fiber, or is pruned by 2048 arbitrary entries beyond 4096 |
| `Priority.PriorityScheduler.UpdatePriority` | internal/scheduler/priority.go:195-207 | rekeys exactly the fiber's first entry; a heap stays one if and only if the item's index field is its position, or the new key fits where it is, or the field names a child that can trade places with it; panics, with the key written, exactly when the field is past the end; error when absent |
| `Priority.PriorityScheduler.Remove` | internal/scheduler/priority.go:212-222 | removes exactly the fiber's first entry; error when absent |
| `Priority.PriorityScheduler.GetRunQueue` | internal/scheduler/priority.go:354-366 | the fibers' own keys in priority order, a permutation, with equal keys in queue order |
| `Priority.BlockingPanics` | internal/scheduler/priority.go:107-119 | fibers of priority 20, 10, 5, 7, the first finished at the first Next: blocking the 5 then panics |
| `Priority.BlockingTakesAnother` | internal/scheduler/priority.go:107-119 | with one more of priority 3, blocking the 5 takes the 3 out instead |
| `Priority.RaisingBreaksOrder` | internal/scheduler/priority.go:195-207 | and raising the 5 leaves the heap out of order |
| `WorkStealing.FilterFinishedInPlace` | internal/scheduler/scheduler.go:408-421 | in-place compaction leaves exactly the unfinished fibers in order and clears the tail |
| `WorkStealing.PutKeepsBalance` | internal/scheduler/workstealing.go:71-109 | Schedule never widens the longest-shortest gap beyond max(1, its previous value) |
| `WorkStealing.PutAddsOne` | internal/scheduler/workstealing.go:71-109 | Schedule puts the fiber once at the end of a shortest queue; every other fiber stays in its queue and order |
| `WorkStealing.SplicedTakesOne` | internal/scheduler/workstealing.go:207-295 | Remove and BlockFiber take one occurrence of the fiber out, if there is one, and nothing else |
| `WorkStealing.PurgedTakesAll` | internal/scheduler/workstealing.go:388-422 | MarkCompleted takes every occurrence of the fiber out, and nothing else |
| `WorkStealing.NextTakesOne` | internal/scheduler/workstealing.go:113-203 | for every shuffle a Next that nobody interrupts fails exactly when no queue holds an unfinished fiber; otherwise it takes one fiber, the home queue's head or, only if that has none, another queue's tail, and every other unfinished fiber stays in place |
| `ConcurrentStealing.NothingLostOrDuplicated` | internal/scheduler/workstealing.go:71-295 | over every interleaving of the lock regions of any number of calls: a fiber was scheduled exactly as often as it is queued, was returned, was dropped as finished or was taken out; only finished ones are dropped, and each return went to one Next call |
| `ConcurrentStealing.NoTwoCallsShare` | internal/scheduler/workstealing.go:113-203 | so a fiber scheduled once is returned to one call at most |
| `ConcurrentStealing.FailedMissesOnlyNewcomers` | internal/scheduler/workstealing.go:113-203 | over every interleaving, an unfinished fiber that is queued when a Next has failed was put there during that call |
| `ConcurrentStealing.UninterruptedIsNext` | internal/scheduler/workstealing.go:113-203 | a call whose regions are not interrupted has the result and effect of the sequential Next |
| `HonestFailure.HonestIffOneWorker` | internal/scheduler/workstealing.go:113-203 | that a Next fails only if at some moment of the call no queue held an unfinished fiber is so in every run if and only if there is at most one worker |
| `HonestFailure.FailsWithWorkAround` | internal/scheduler/workstealing.go:113-203 | for every larger number of workers, a run of two callers in which the first fails with work queued at every moment |
| `WorkStealing.StealTakesOne` | internal/scheduler/workstealing.go:168-203 | a steal fails only when no victim has work and otherwise takes exactly one victim's last unfinished fiber |
| `BoundedWait.BoundedWaitIff` | internal/scheduler/workstealing.go:71-203 | an unfinished fiber at position k of any of w queues, not removed, is returned within (k+1)*w sequential Next calls in every run, for every shuffle and whatever is scheduled, removed or completed meanwhile, if and only if the counter keeps those rounds even: it does not wrap in them, or w divides 2^64, or it wraps once and exactly between two rounds; also when only queues count that a new scheduler gets to |
| `RoundRobin.RoundRobinIff` | internal/scheduler/workstealing.go:121-125 | numWorkers consecutive calls visit every worker if and only if the 64-bit counter does not wrap among them or numWorkers divides 2^64 |
| `RoundRobin.WrapPassesOver` | internal/scheduler/workstealing.go:121-125 | names the worker that is passed over when it wraps otherwise |
| `RoundRobin.UnevenFallsShort` | internal/scheduler/workstealing.go:121-125 | when the rounds are not even some worker gets fewer turns than there are rounds |
| `BoundedWait.StillWaiting` | internal/scheduler/workstealing.go:113-165 | and from queues that Schedule calls for distinct fibers have filled evenly, the fiber at position k of that worker's queue is still waiting after all of them |
| `WorkStealingObject.WorkStealingScheduler.Schedule` | internal/scheduler/workstealing.go:71-109 | the scan picks the first shortest queue; refused when stopped |
| `WorkStealingObject.WorkStealingScheduler.Next` | internal/scheduler/workstealing.go:113-165 | state and result as the step says, error cases included |
| `WorkStealingObject.WorkStealingScheduler.StealWork` | internal/scheduler/workstealing.go:168-203 | the victim loop does what the recursive definition says |
| `WorkStealingObject.WorkStealingScheduler.BlockFiber` | internal/scheduler/workstealing.go:207-228 | takes the fiber out of the first queue that holds it and records it as blocked |
| `WorkStealingObject.WorkStealingScheduler.UnblockFiber` | internal/scheduler/workstealing.go:242-276 | moves the oldest blocked entry to the shortest queue; error when there is none |
| `WorkStealingObject.WorkStealingScheduler.Remove` | internal/scheduler/workstealing.go:281-295 | takes out the first occurrence; error when absent |
| `WorkStealingObject.WorkStealingScheduler.MarkCompleted` | internal/scheduler/workstealing.go:388-422 | counts a fiber that is not on record, records it and filters it out of every queue |
| `WorkStealingObject.WorkStealingScheduler.Clear` | internal/scheduler/workstealing.go:430-446 | empties queues and blocked list; the round-robin counter runs on |
| `Detector.EpisodesAlternate` | internal/runtime/deadlock.go:128-169 | over every sequence of scans and clears: entries since the last clear alternate from a detection, active iff the last is unresolved, the stored list is their suffix of at most 100, the metric counts every detection ever |
| `Detector.DetectionFollowsTimeout` | internal/runtime/deadlock.go:133-143 | a detection comes only after at least timeout of scans without progress |
| `Detector.DetectsIff` | internal/runtime/deadlock.go:131-169 | over every sequence of scans and clears, a scan adds a detection, and one to the metric, if and only if it meets the no-progress test, the detector and every scan that saw progress are at least timeout old, and no detection since the last clear is unresolved; it adds a resolution if and only if it sees progress after an unresolved detection; otherwise nothing |
| `Detector.ProgressIsRemembered` | internal/runtime/deadlock.go:128-135 | lastProgress is never earlier than a scan that saw progress |
| `Detector.DeadlockDetector.CountStates` | internal/runtime/deadlock.go:102-117 | the counting loop counts the non-main fibers per state |
| `Detector.DeadlockDetector.CheckForDeadlock` | internal/runtime/deadlock.go:87-170 | one scan of a running runtime is one step, after which an episode is active exactly when the test is met and one was active or timeout has passed since the last progress; one that is not running is not looked at |
| `Detector.ClearStartsOver` | internal/runtime/deadlock.go:196-204 | after ClearDeadlocks, whatever scans follow, the detector stores, reports and remembers what a new one would, and the metric counts on |
| `Events.BackwardIndex` | internal/metrics/metrics.go:614-631 | the backward index expression is right despite Go's remainder taking the dividend's sign |
| `Events.EventTracker.RecordEvent` | internal/metrics/metrics.go:583-594 | appends to the log; the ring keeps agreeing with its last entries |
| `Events.EventTracker.GetEvents` | internal/metrics/metrics.go:598-610 | exactly the last min(capacity, total) events since Clear, oldest first |
| `Events.EventTracker.GetRecentEvents` | internal/metrics/metrics.go:614-631 | the suffix of length n of what GetEvents returns, for every n |
| `Events.EventTracker.Clear` | internal/metrics/metrics.go:641-651 | an empty log and overwritten slots |

## Left out

- WorkStealing.PutKeepsBalance: for Schedule calls that do not overlap; the source scans the queue lengths without holding the locks together, so overlapping calls can pick the same queue.
- BoundedWait.BoundedWaitIff: for Next calls one after the other; parallel callers are covered by conservation and by what a failing call can miss.
- Reheapify: the same effect as UpdatePriority with the fiber's own priority, not repeated.
- Wrap-around of activeFiberCount, permit and pop counters at 2^63; only the round-robin counter and the wait group's counter are bounded.
- Counter exactness across a Reset with registered fibers, which the code does not keep.
- Nil receivers, nil arguments other than the current fiber, panic texts, names, colours, stacks and stack sizes.
- Wall-clock time, averages, rates and the latency histogram; only creation times and the detector's clock remain, as integers.
- Reader fairness of the RW mutex: readers can wait as long as writers keep arriving, and readers that arrive after the queued writers left can pass queued readers.
- The detector's goroutine and ticker, and scans that are not one snapshot.
- FIFO and round-robin schedulers, typed channels, spawn groups, handles and options: thin layers over what is modelled.
- HTTP, WebSocket, command-line and tracing code.
- Go memory-model races and aliasing of slices; queues other than the event ring and the in-place filter are sequence-valued fields.
