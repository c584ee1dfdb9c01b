# Zephyr kernel objects, verified in Dafny

Models of the parts of the Zephyr kernel whose correctness rests on state that several
operations share, and of two of its build scripts, with proofs of what they promise over
all inputs and all runs. `dafny verify dfyconfig.toml` checks everything.

| file | models | main results |
|---|---|---|
| `Timeouts.dfy` | the delta list of timeouts and the tick announcement | `AnnounceExact`, `WholeLife`, `AbortedNeverFires`, `OnTimeIff` |
| `Pipes.dfy` | pipes: ring buffer, waiting readers and writers | `PutMeets`, `GetMeets`, `RunConserves`, `FifoIff` |
| `WorkQueues.dfy` | work queues: submit, flush, cancel, drain, delays, workers | `FlushIsSound`, `DrainIsSound`, `CancelIsSound`, `FirstComeFirstServed`, `AllReleasedIff`, `NoReentrancy`, `FlagsAreExact`, `NoStall` |
| `Paging.dfy` | demand paging | `RunTransparent`, `WriteThenRun`, `TrackedExactly`, `PinnedFromThenOn` |
| `VirtRegions.dfy` | the virtual region allocator | `RegionAllocator.Alloc`, `OffsetsInvert` |
| `PageTables.dfy` | the page-table generator for x86 | `PtableSet.Map`, `AfterMapExact`, `TranslateIs` |
| `Mutexes.dfy` | mutexes with priority inheritance | `InheritanceHolds`, `UpheldIff`, `LocksNest` |
| `Polls.dfy` | `k_poll` | `NoLostWakeup`, `NoWaitForReady`, `ReturnsClean`, `SuccessMeansReady` |
| `MsgQueues.dfy` | message queues | `DeliveredInOrder`, `LeaversAreTold`, `UniformIff` |
| `Mailboxes.dfy` | mailboxes and their descriptor pool | `NoPairWaits`, `PoolPartition`, `PayloadArrives`, `SenderReleased` |
| `MemSlabs.dfy` | memory slabs | `Conservation`, `GrantsAreExclusive`, `WaitersServed` |
| `ModuleSort.dfy` | the ordering of Zephyr modules | `Sort` |

`WaitQueues.dfy`, `Sequences.dfy`, `Arithmetic.dfy`, `Memory.dfy` and `Options.dfy` hold what
these share.

## How the models are built

Each kernel object has an abstract state, one function for each critical section of the
source that changes it, and an invariant that a lemma per function shows to be kept. A run
is any sequence of such steps, by any threads, in any order: one processor, and other
threads and timeouts wherever the source releases its lock. The main theorems are about
every state a run can reach.

Beside it stands a class with the source's own fields and loops. Each method is proved to
do to the abstract state what its step function says, so the theorems apply to it. What an
operation promises its callers is stated without the step functions and proved of them for
every state (`Pipes.PutMeets`, `WorkQueues.SubmitMeets`, `Timeouts.AbortExact` and so on). Lists
the source links through pointers are sequences; buffers are arrays. A wait queue is a
sequence in the scheduler's order, and a timeout of a wait is a step that removes a waiter.

Some fields are bookkeeping and influence nothing: the serial numbers of timeouts and of
mailbox messages, the log of the work queues, what a pipe has carried and a message queue
has accepted and delivered, which state bits an event had before a call, and where a
mailbox sender is.

What is not the kernel's own is a parameter: clock readings and announced ticks, timeout
callbacks (any function from what has fired so far to a list of operations), the choice of
a victim to evict and of a location in the backing store, and whether the store keeps a
copy. For these last, what the interface promises is required: a location is not in use,
and a frame is marked as backed exactly if the store has its content.

Where code and comments disagree, the code is modelled. A comment in the timeout code
(kernel/timeout.c:76-78) says that the ticks still to be announced are non-zero throughout
an announcement; they are already 0 while all but the first of the timeouts due at the last
tick fire (kernel/timeout.c:230-243). `Timeouts.OnTimeIff` says when this makes a timeout that
a callback starts late, and `Timeouts.LastTieIsLate` gives a run on which it does.

Results where the obvious statement is false, with the exact condition:

- With a thread above the priority ceiling a mutex owner can end up less urgent than a waiter
  (`Mutexes.WaiterAboveCeilingIsNotServed`) or than itself (`Mutexes.OwnerAboveCeilingLoses`);
  `Mutexes.UpheldIff` says exactly when neither can happen.
- A pipe is not first in, first out when a waiting writer is overtaken by a more urgent one
  (`Pipes.OvertakingBreaksOrder`) or gives up (`Pipes.GivingUpBreaksOrder`); `Pipes.FifoIff`
  says that these are the only cases. `Pipes.RunConserves` holds on all runs.
- A slab without blocks is not in order where sizes have 64 bits, and is where they have 32:
  `MemSlabs.MemSlab.CreateFreeList` is right exactly if there is a block or sizes have 32 bits.
- Of several threads that cancel one run and wait for its end only the first is released
  (`WorkQueues.SecondCancellerStranded`); `WorkQueues.AllReleasedIff` says exactly when all are.
- A thread can wait in `k_poll` for what is there, when a signal found more than one thread
  (`Polls.SecondWaitsOn`); `Polls.StepIdle` says that no other step brings this about.
- A message queue with room for no message lets readers and writers wait together
  (`MsgQueues.NoRoomMixes`); `MsgQueues.UniformIff` says that this is the only case.
- A module that names a dependency twice is never sorted, although nothing is missing or
  cyclic: `ModuleSort.Sort` has it in its condition.
- An address that is not on a page boundary does not survive the conversion to a bitmap
  offset and back: `VirtRegions.OffsetsInvert` says exactly which do.

## Model

| member | source | states |
|---|---|---|
| `WaitQueues.Rank` | kernel/sched.c:583-594 | how many waiters a thread queues behind: all before it are at least as urgent, the one after it is less urgent |
| `WaitQueues.PendKeepsOrder` | kernel/sched.c:717-731 | queueing a thread keeps the queue ordered by priority and adds exactly that thread |
| `WaitQueues.RankIs` | kernel/sched.c:59-91 | there is only one place in a queue that keeps both the order and first in, first out among equals |
| `WaitQueues.UnpendList` | kernel/sched.c:583-594 | taking a waiter off removes that waiter and no other, and keeps the order |
| `Timeouts.AnnounceExact` | kernel/timeout.c:210-252 | from every state an announcement can start in, for every number of ticks and every callback that starts and aborts timeouts: of all timeouts ever started, exactly those not aborted and due by entry tick + n have fired, and exactly those not aborted and due later are pending; firing goes on in expiry order, first in first out among ties; the clock ends at entry + n |
| `Timeouts.WholeLife` | kernel/timeout.c:99-252 | over every sequence of starts, aborts and announcements: each timeout ever started is exactly one of pending, fired and aborted; one not aborted has fired exactly if its expiry has been reached; all firings there ever were are in expiry order, ties first in first out |
| `Timeouts.LifeKeeps` | kernel/timeout.c:99-252 | over every such sequence the queue stays ordered, every entry accounted for, nothing due between calls, and the past is never rewritten |
| `Timeouts.RunLedger` | kernel/timeout.c:210-252 | through the rounds of the loop nothing is ever both fired and aborted, nothing disappears, the history only grows, and at the end nothing is due |
| `Timeouts.FireKeeps` | kernel/timeout.c:230-243 | each round sets the clock to the expiry of what it fires, and if the clock did not move then fewer entries are due now: with `Run` this is why the loop ends for every callback |
| `Timeouts.OnTimeIff` | kernel/timeout.c:62-80 | a timeout started by a callback is due the asked number of ticks and one after the firing one, whatever the hardware clock says, exactly if the clock had not yet reached the last announced tick before that one fired |
| `Timeouts.LastTieIsLate` | kernel/timeout.c:230-243 | a run from an empty list on which it does not: of two timeouts due at the last tick the second one starts a timeout of 5 ticks, which expires 7 ticks too late, as many as the hardware clock has counted |
| `Timeouts.ApplyKeeps` | kernel/timeout.c:99-156 | a start or an abort in a callback keeps the queue ordered and never makes more entries due at the current tick, since a new timeout is at least one tick away |
| `Timeouts.Delay` | kernel/timeout.c:99-122 | a new timeout is never due at the current tick; an absolute one is due at its tick or the next, whichever is later; a relative one a full tick after what was asked for, counted from the hardware clock outside announcements and from the firing tick while ticks are left to announce |
| `Timeouts.StartExact` | kernel/timeout.c:99-142 | starting a timeout adds exactly one entry, for that timeout and due when it should be, and touches no other entry, the clock or what has fired |
| `Timeouts.AbortExact` | kernel/timeout.c:144-156 | aborting takes out every entry of that timeout and no other |
| `Timeouts.AbortedNeverFires` | kernel/timeout.c:144-252 | over every life of the list: an entry that is pending when its timeout is aborted never fires and is never pending again, whatever is called afterwards and whatever callbacks do |
| `Timeouts.AbortedInCallback` | kernel/timeout.c:144-252 | nor does one that a callback aborts in the middle of an announcement |
| `Timeouts.RemoveRepresents` | kernel/timeout.c:53-60 | taking a node out of the delta list, its ticks given to the next one, leaves every other absolute expiry as it was |
| `Timeouts.InsertRepresents` | kernel/timeout.c:116-132 | putting a node into the delta list, its ticks taken from the next one, leaves every other absolute expiry as it was |
| `Timeouts.LeaveRepresents` | kernel/timeout.c:245-250 | moving the clock on and shortening the first node by as much leaves every absolute expiry as it was |
| `Timeouts.InsertOrdered` | kernel/timeout.c:123-132 | an inserted timeout goes behind all that are due at the same tick, and does not change what is due now |
| `Timeouts.RemoveOrdered` | kernel/timeout.c:53-60 | a removal keeps expiry order and makes no more entries due |
| `Timeouts.TimeoutList.constructor` | kernel/timeout.c:17-20 | the empty delta list stands for an empty queue at tick 0 with nothing fired |
| `Timeouts.TimeoutList.RemoveTimeout` | kernel/timeout.c:53-60 | the delta list still stands for the queue, without that entry |
| `Timeouts.TimeoutList.Walk` | kernel/timeout.c:116-132 | the walk over the deltas stops at the place absolute expiry order calls for, with the remaining ticks right for it |
| `Timeouts.TimeoutList.InsertTimeout` | kernel/timeout.c:116-132 | the delta list stands for the queue with the new entry in expiry order behind its ties |
| `Timeouts.TimeoutList.AddTimeout` | kernel/timeout.c:99-142 | K_FOREVER changes nothing; otherwise exactly one entry is added, due as `Delay` says, in expiry order, all others stay, and nothing becomes due |
| `Timeouts.TimeoutList.AbortTimeout` | kernel/timeout.c:144-156 | reports whether the timeout was pending; afterwards it is not, and every other entry stays with its expiry; nothing becomes due |
| `Timeouts.TimeoutList.Expires` | kernel/timeout.c:159-198 | the sum of the deltas is the absolute expiry of a pending timeout |
| `Timeouts.TimeoutList.FireFirst` | kernel/timeout.c:230-243 | one round of the announce loop with its callback is one round of the abstract run |
| `Timeouts.TimeoutList.Announce` | kernel/timeout.c:210-252 | the loop over the delta list computes the abstract run, firing order and final queue alike, and leaves nothing due; its state is always one `AnnounceExact` speaks of |
| `Pipes.TransferConserves` | kernel/pipes.c:326-378 | whatever the sources and destinations, what was copied followed by what is left over is what there was |
| `Pipes.DealTakes` | kernel/pipes.c:326-378 | the destinations together receive exactly the first bytes of the sources, as many as fit |
| `Pipes.DropLeaves` | kernel/pipes.c:326-378 | the sources together keep exactly the bytes after those |
| `Pipes.CopyStep` | kernel/pipes.c:337-375 | one round of the copy loop leaves the final outcome unchanged |
| `Pipes.PutCopies` | kernel/pipes.c:404-447 | serving only as many readers as the walk found gives each reader and the ring what serving all of them would |
| `Pipes.RefillCopies` | kernel/pipes.c:628-650 | filling the ring from only the writers the walk found takes the same bytes as filling it from all |
| `Pipes.SegmentsFit` | kernel/pipes.c:268-294 | one or two stretches of the ring hold exactly the bytes wanted and never overlap the rest, wrapped or not |
| `Pipes.PutSplits` | kernel/pipes.c:380-491 | the data of a put is, in order, what readers got, what the ring got and what is left to the writer |
| `Pipes.PutKeeps` | kernel/pipes.c:404-491 | after a put a reader waits only at an empty ring with no writer, and a writer with bytes left only at a full ring |
| `Pipes.GetKeeps` | kernel/pipes.c:628-650 | the same after the refill of a get |
| `Pipes.RefillStream` | kernel/pipes.c:628-650 | moving bytes from waiting writers to the ring leaves the byte stream as it was |
| `Pipes.ReleaseData` | kernel/pipes.c:591-626 | waking writers that have nothing left takes no byte out of the stream |
| `Pipes.LeaveKeeps` | kernel/pipes.c:495-512 | a waiter that times out leaves the wait queues as they should be |
| `Pipes.RunConserves` | kernel/pipes.c:380-722 | over every run of puts, gets and timeouts: the bytes readers have received, followed by the stream, are the bytes sent, in the order the pipe carries them |
| `Pipes.FirstInFirstOut` | kernel/pipes.c:380-722 | over every run in which no put goes ahead of waiting bytes and none are taken back: received bytes followed by the stream are the accepted bytes in the order of the puts |
| `Pipes.SamePrioInTurn` | kernel/pipes.c:380-513 | that is every run in which all writers have one priority and none times out |
| `Pipes.OnePrioIsFifo` | kernel/pipes.c:380-722 | from an empty pipe of any size, on every run in which all writers have one priority and none gives up, the bytes come out in the order they were put in |
| `Pipes.OvertakingBreaksOrder` | kernel/pipes.c:404-491 | for every size and any two different priorities there is a run on which the order fails: a put that is too long waits, and a more urgent put goes ahead of its rest |
| `Pipes.GivingUpBreaksOrder` | kernel/pipes.c:495-512 | for every size there is a run on which accepted bytes never come out: a put that is too long waits and times out |
| `Pipes.FifoIff` | kernel/pipes.c:380-722 | all runs whose writers have priorities from a given set, with or without time-outs, deliver the bytes in the order of the puts exactly if the set holds no two priorities, and none at all if writers may give up |
| `Pipes.PutConserves` | kernel/pipes.c:404-491 | a put enters the stream before the bytes of the waiting writers it outranks and after all others; what readers get directly was next in the stream |
| `Pipes.OfferInTurn` | kernel/pipes.c:337-375 | the readers a put wakes are the first ones of the queue and have all they asked for; the others stay in their order and want more, and of these only the first may have got something; everybody keeps what it had followed by its share |
| `Pipes.PutMeets` | kernel/pipes.c:380-513 | what a put promises, for every state: refused with -EINVAL or -EIO under the source's conditions and nothing changed; else the bytes written are, in order, those of the readers in turn and those of the ring, all of them unless every reader is served and the ring full; the caller waits exactly if something is left, waiting is allowed and there is no minimum or it is not reached, and then with exactly the rest at its place in the queue |
| `Pipes.GetServes` | kernel/pipes.c:591-650 | the writers a get looks at are no more than it needs; bytes are taken from the first writer on; of those it looked at exactly the ones with nothing left are woken, the others stay, and the ring is refilled from the first of them on |
| `Pipes.GetMeets` | kernel/pipes.c:531-722 | what a get promises, for every state: refused under the source's conditions and nothing changed; else it takes the front of the stream, less than asked only if that is all there is; the caller waits exactly if something is missing, waiting is allowed and there is no minimum or it is not reached; writers as `GetServes` says |
| `Pipes.StepAppends` | kernel/pipes.c:404-491 | a put that outranks no waiting bytes appends exactly what it is let in with |
| `Pipes.GetStepKeeps` | kernel/pipes.c:531-697 | a get moves a prefix of the stream to the reader and keeps the waiting threads as they should be |
| `Pipes.TimeoutKeeps` | kernel/pipes.c:495-512 | a writer that gives up takes exactly its own unsent bytes out of the stream; a reader takes none |
| `Pipes.Pipe.constructor` | kernel/pipes.c:39-60 | an empty pipe of any size, size 0 included |
| `Pipes.Pipe.PipeWrite` | kernel/pipes.c:326-378 | the loop over source and destination lists hands out the bytes in order, appends the ring's part to the ring's contents and leaves each source its remainder |
| `Pipes.Pipe.WalkWaiters` | kernel/pipes.c:222-260 | enough waiters have been found, or all of them have been looked at, and as many as the abstract walk finds, which are no more than needed |
| `Pipes.Pipe.FreeSegments` | kernel/pipes.c:268-294 | the stretches make up exactly the free part of the ring |
| `Pipes.Pipe.UsedSegments` | kernel/pipes.c:268-294 | the stretches make up exactly the used part of the ring |
| `Pipes.Pipe.HandOut` | kernel/pipes.c:404-466 | the readers get the first bytes, as many as they want together, the ring the next ones, as many as fit, and the rest is left; readers whose requests are filled leave the queue |
| `Pipes.Pipe.Accept` | kernel/pipes.c:404-513 | a put that is not refused: the readers are served in turn and those with all they asked for woken, then the ring is filled, then the caller waits with the rest exactly if the minimum calls for it |
| `Pipes.Pipe.Put` | kernel/pipes.c:380-513 | does what `PutMeets` promises: who is woken with what, what goes to the ring, how much was written, whether the caller waits, every refusal; in the stream the accepted bytes go behind everything but the waiting writers the caller outranks |
| `Pipes.Pipe.Collect` | kernel/pipes.c:591-626 | the bytes taken are the first ones of ring and writers together, and both keep exactly the rest |
| `Pipes.Pipe.Refill` | kernel/pipes.c:628-650 | the ring takes the writers' first bytes, as many as fit |
| `Pipes.Pipe.Take` | kernel/pipes.c:551-626 | what is delivered is a prefix of the stream, what remains is the rest of it, and the writers that have nothing left are woken |
| `Pipes.Pipe.Deliver` | kernel/pipes.c:578-697 | delivery and refill together: the stream afterwards is the old one without the delivered prefix, and the caller waits exactly if the minimum calls for it |
| `Pipes.Pipe.Get` | kernel/pipes.c:531-722 | does what `GetMeets` promises: the front of the stream, who of the writers is woken, how the ring is refilled, whether the caller waits, every refusal |
| `Pipes.Pipe.ReaderTimeout` | kernel/pipes.c:681-696 | a reader whose wait ends keeps what it got and is told whether that was enough |
| `Pipes.Pipe.WriterTimeout` | kernel/pipes.c:495-512 | a writer whose wait ends is told how much of its data went, and the rest leaves the stream |
| `Pipes.Pipe.Flush` | kernel/pipes.c:108-120 | the whole stream is taken, none is left, and the writers it drained are woken as by a get; waiting readers stay |
| `Pipes.Pipe.ReadAvail` | kernel/pipes.c:739-764 | the number computed from the indices is the number of bytes in the ring |
| `Pipes.Pipe.WriteAvail` | kernel/pipes.c:776-801 | the number computed from the indices is the number of free bytes |
| `WorkQueues.FlushIsSound` | kernel/work.c:187-209 | however other submits, cancels, flushes, drains and worker steps interleave: when a flusher is released, the submission that was queued or running at the flush has finished or been cancelled |
| `WorkQueues.DrainIsSound` | kernel/work.c:773-803 | for every interleaving: when a drain returns, everything that was queued or running when it began has finished or been cancelled |
| `WorkQueues.CancelIsSound` | kernel/work.c:577-610 | for every interleaving: when a synchronous cancel returns, the run it waited for is over |
| `WorkQueues.RunCancelsOnce` | kernel/work.c:125-148 | over every run each synchronous cancel there ever was is exactly one of waiting, and then listed once, and released |
| `WorkQueues.FirstCancellerOnly` | kernel/work.c:125-148 | in every reachable state: when the run of an item that is being cancelled ends, of the synchronous cancels waiting for the item exactly the first is released |
| `WorkQueues.AllReleasedIff` | kernel/work.c:125-148 | so the end of that run releases all of them exactly if no two wait |
| `WorkQueues.SecondCancellerStranded` | kernel/work.c:577-610 | two threads cancel one run and wait: when it has ended one of them is released and the other still waits for what is over |
| `WorkQueues.NoReentrancy` | kernel/work.c:616-707 | in every reachable state an item runs on at most one queue and is queued at most once on one queue, and neither of these submissions is done yet |
| `WorkQueues.TakenInOrder` | kernel/work.c:616-683 | over every run the submissions that a queue's worker starts on have increasing numbers: they run in the order in which they were made |
| `WorkQueues.FirstComeFirstServed` | kernel/work.c:267-299 | over every run: when a submission to a queue starts, every earlier one that was listed there has started before it or was taken off by a cancel |
| `WorkQueues.RunInOrder` | kernel/work.c:267-299 | in every reachable state the submissions on each pending list are in the order in which they were made |
| `WorkQueues.SubmitMeets` | kernel/work.c:267-372 | what a submit promises, for every state: an item neither queued nor being cancelled goes to the end of the list of its target, its own queue while it runs, exactly if that queue is started, is not draining unless called from its own handler, and not plugged unless draining; otherwise nothing changes, with the source's code |
| `WorkQueues.FlushMeets` | kernel/work.c:187-209 | a flusher stands right behind the submission it waits for, or first when that one runs: it waits for nothing submitted later |
| `WorkQueues.FlagsAreExact` | kernel/work.c:218-224 | in every reachable state: QUEUED exactly if the item is on the pending list of its own queue, and there once; RUNNING exactly if that queue's worker executes it; CANCELING only while running and not queued |
| `WorkQueues.NoStall` | kernel/work.c:237-252 | in every reachable state a worker sleeps only with nothing pending, nothing running and no drain asked for, and a queue that is being drained is awake |
| `WorkQueues.RunKeeps` | kernel/work.c:267-707 | over every run flags, lists, flushers and drains stay in step, and no run forgets what was done or what somebody waits for |
| `WorkQueues.StepKeeps` | kernel/work.c:267-707 | every step of every operation keeps flags, pending lists, running items, cancellers, flushers and drains in step with one another |
| `WorkQueues.StepRemembers` | kernel/work.c:105-148 | done stays done, and what a flush, drain or cancel waits for never changes |
| `WorkQueues.EnqueueKeeps` | kernel/work.c:267-306 | a submission keeps flags and lists in agreement and every flusher, drain and canceller behind what it waits for |
| `WorkQueues.DequeueKeeps` | kernel/work.c:218-231 | so does taking an item off, since its submission counts as done from then on |
| `WorkQueues.TakeKeeps` | kernel/work.c:631-656 | so does moving the head of a list to running |
| `WorkQueues.FinishJobKeeps` | kernel/work.c:690-703 | a finished submission is recorded as done, and only now |
| `WorkQueues.FinishFlusherKeeps` | kernel/work.c:105-113 | when a flusher gets its turn, all it was asked to wait for is done |
| `WorkQueues.AddFlusherKeeps` | kernel/work.c:187-209 | a new flusher is behind everything it waits for, wherever the item is, and displaces no other |
| `WorkQueues.CancelAsyncKeeps` | kernel/work.c:508-527 | afterwards the item is not queued, and canceling exactly if it runs |
| `WorkQueues.AddCancellerKeeps` | kernel/work.c:544-557 | a new canceller waits for a run that is going on, and flags, lists and other waits stay in agreement |
| `WorkQueues.AddDrainKeeps` | kernel/work.c:773-803 | what a new drain waits for is running or listed on a queue that is marked and awake; all else stays in agreement |
| `WorkQueues.FlushersInsert` | kernel/work.c:187-209 | an insertion keeps each flusher behind what it waits for if the new one is |
| `WorkQueues.FlushersTake` | kernel/work.c:631-656 | so does moving the head of the list to running |
| `WorkQueues.WorkSystem.constructor` | kernel/work.c:718-727 | idle items and empty queues satisfy the invariant; no queue takes work before it is started |
| `WorkQueues.WorkSystem.StartQueue` | kernel/work.c:729-771 | the queue takes work from now on, and nothing else changes |
| `WorkQueues.WorkSystem.Submit` | kernel/work.c:267-372 | does what `SubmitMeets` promises, and keeps the lists in order of submission |
| `WorkQueues.WorkSystem.Flush` | kernel/work.c:447-463 | a flusher is queued exactly if the item is queued or runs, at the place `FlushMeets` says |
| `WorkQueues.WorkSystem.Cancel` | kernel/work.c:508-527 | what is queued is taken off, what runs is marked, and the result says which |
| `WorkQueues.WorkSystem.CancelSync` | kernel/work.c:544-610 | waits exactly if the item runs after the queued part is gone |
| `WorkQueues.WorkSystem.WorkerLook` | kernel/work.c:623-683 | the worker starts on the first of its list; when there is none it sleeps, no drain is left and everybody who waited for one is woken |
| `WorkQueues.WorkSystem.ReleaseCanceller` | kernel/work.c:125-148 | the first canceller of the item is released, the others are left alone |
| `WorkQueues.WorkSystem.WorkerFinish` | kernel/work.c:690-707 | the end of a handler; a released flusher's submissions are all done at that moment |
| `WorkQueues.WorkSystem.DrainQueue` | kernel/work.c:773-803 | waits exactly if there is something to drain or the queue is to be plugged |
| `WorkQueues.WorkSystem.UnplugQueue` | kernel/work.c:805-823 | unplugs, or says that the queue was not plugged |
| `WorkQueues.WorkSystem.Unschedule` | kernel/work.c:942-957 | the delay is gone, whether or not its timeout could still be stopped |
| `WorkQueues.WorkSystem.ScheduleFor` | kernel/work.c:910-928 | submits at once or sets the delay |
| `WorkQueues.WorkSystem.Schedule` | kernel/work.c:977-999 | does nothing unless the item is idle or only running |
| `WorkQueues.WorkSystem.Reschedule` | kernel/work.c:1013-1035 | replaces a delay that is set |
| `WorkQueues.WorkSystem.WorkTimeout` | kernel/work.c:833-854 | submits only if the delay has not been withdrawn in the meantime |
| `WorkQueues.WorkSystem.CancelDelayable` | kernel/work.c:1049-1063 | neither delayed nor queued afterwards, and canceling exactly if running |
| `WorkQueues.WorkSystem.FlushDelayable` | kernel/work.c:1097-1144 | a delayed item is submitted at once and then flushed |
| `Paging.RunTransparent` | kernel/mmu.c:1205-1612 | paging is invisible: over every run of evictions, page-ins, faults, pins, mappings and writes to other pages, an address reads as before |
| `Paging.WriteThenRun` | kernel/mmu.c:1205-1612 | what was written is read back after every such run |
| `Paging.StepTransparent` | kernel/mmu.c:1205-1612 | the same for one step, and a write changes the written page only |
| `Paging.TrackedExactly` | kernel/mmu.c:1205-1311 | over every run the frames tracked for eviction are exactly the mapped unpinned ones, and the free list exactly the unmapped ones |
| `Paging.RunKeepsPinned` | kernel/mmu.c:1332-1385 | over every run a pinned page stays in its frame until it is unpinned or unmapped |
| `Paging.PinnedFromThenOn` | kernel/mmu.c:1562-1612 | a page loaded or mapped to stay, or pinned, is pinned and not tracked from then on: no run without an unpin of its frame or an unmap of the page evicts or moves it |
| `Paging.NotPinnedIsTracked` | kernel/mmu.c:1596-1604 | a page loaded or mapped otherwise, or unpinned, can be evicted at once |
| `Paging.StepKeepsPinned` | kernel/mmu.c:1480-1612 | no step evicts or moves a pinned page, since a pinned page is never tracked and only tracked frames are chosen |
| `Paging.EvictKeeps` | kernel/mmu.c:1205-1311 | a page that leaves memory is read from the store with the content it had; frames, free list and tracked frames stay in step |
| `Paging.PageOutLeaves` | kernel/mmu.c:1205-1311 | with the page written out and its entry pointing at the store every address reads as before and no page is in the frame; only the frame's flags are still to be cleared |
| `Paging.FreeFrameKeeps` | kernel/mmu.c:432-443 | clearing the flags of such a frame and listing it as free restores the invariant and changes no content |
| `Paging.LoadKeeps` | kernel/mmu.c:1480-1612 | a page that is loaded reads as it did in the store |
| `Paging.MapNewKeeps` | kernel/mmu.c:520-567 | a new page disturbs no other |
| `Paging.SetPinnedKeeps` | kernel/mmu.c:1653-1671 | the frames tracked for eviction stay exactly the mapped unpinned ones |
| `Paging.WriteKeeps` | kernel/mmu.c:1205-1255 | a store makes the page dirty, so that a copy kept in the backing store is not trusted |
| `Paging.ForgetKeeps` | kernel/mmu.c:1594-1601 | a copy in the store may be given up at any time |
| `Paging.UnmapKeeps` | kernel/mmu.c:653-770 | an unmapped page goes, and no other |
| `Paging.MemoryManager.constructor` | kernel/mmu.c:997-1085 | all frames free |
| `Paging.MemoryManager.FreeListGet` | kernel/mmu.c:399-415 | none exactly if the list is empty; the frame handed out holds no page of any address, is not tracked and not on the list any more; no flag of any frame changes |
| `Paging.MemoryManager.FrameFree` | kernel/mmu.c:432-443 | once no page is in the frame, freeing it restores the whole invariant and no address notices |
| `Paging.MemoryManager.Prepare` | kernel/mmu.c:1205-1259 | afterwards no address leads to the frame; a page said not to need writing can be read from its location in the store already; with a full store nothing happens |
| `Paging.MemoryManager.EvictMapped` | kernel/mmu.c:1262-1311 | an eviction as a whole is one abstract eviction, or nothing if the store is full |
| `Paging.MemoryManager.EvictPage` | kernel/mmu.c:1262-1311 | afterwards the page is in the store, and all memory reads as before |
| `Paging.MemoryManager.EvictFrame` | kernel/mmu.c:1332-1385 | afterwards the frame is not in use, and all memory reads as before |
| `Paging.MemoryManager.ObtainFrame` | kernel/mmu.c:526-549 | a free frame, or one that had to be evicted first |
| `Paging.MemoryManager.PageFault` | kernel/mmu.c:1480-1612 | true exactly for a mapped address, which is then loaded; pinned and not tracked if asked for, tracked if it was brought in otherwise; no content changes and no other page moves but the victim's; a victim is needed only for a page that is paged out while no frame is free |
| `Paging.MemoryManager.LoadPage` | kernel/mmu.c:1562-1605 | the page is loaded, pinned or tracked as asked; a victim is evicted if need be, no other page moves, and no content changes |
| `Paging.MemoryManager.MapAnon` | kernel/mmu.c:520-567 | the page is mapped and loaded, pinned or tracked as asked, or there was no frame; no other page moves but the victim's, and their content is unchanged |
| `Paging.MemoryManager.Unpin` | kernel/mmu.c:1653-1671 | only a loaded page is unpinned; no content changes |
| `VirtRegions.OffsetsInvert` | kernel/mmu.c:201-211 | the two conversions between bitmap offsets and addresses undo each other: one way always, the other way exactly on page boundaries |
| `VirtRegions.RoundUpPages` | kernel/mmu.c:316-318 | rounding the start of an over-allocated region up skips fewer pages than were added for it |
| `VirtRegions.TrimOffsets` | kernel/mmu.c:350-358 | the two pieces cut off an over-allocated region are given back at the offsets where they lie |
| `VirtRegions.TrimBits` | kernel/mmu.c:288-368 | marking the whole and clearing the two pieces is the same as marking the aligned part alone |
| `VirtRegions.Layout.AddLive` | kernel/mmu.c:288-368 | a newly found run overlaps no live region and neither reserved end |
| `VirtRegions.Layout.RemoveLive` | kernel/mmu.c:240-264 | the bits of a released region are clear, all others as before |
| `VirtRegions.Layout.RunAddresses` | kernel/mmu.c:201-205 | runs between the reserved ends are addresses inside the region |
| `VirtRegions.RegionAllocator.constructor` | kernel/mmu.c:213-237 | no region is live |
| `VirtRegions.RegionAllocator.SetRegion` | lib/utils/bitarray.c:172-211 | exactly the given bits take the value |
| `VirtRegions.RegionAllocator.AllocBits` | lib/utils/bitarray.c:491-561 | the search returns a clear run and marks it, and fails only if there is none of that length |
| `VirtRegions.RegionAllocator.FreeBits` | lib/utils/bitarray.c:638-690 | exactly the given bits are cleared, if all of them were set |
| `VirtRegions.RegionAllocator.Init` | kernel/mmu.c:213-237 | both reserved ends are marked |
| `VirtRegions.RegionAllocator.Free` | kernel/mmu.c:240-264 | the bits of a region inside the range are cleared, everything else is ignored |
| `VirtRegions.RegionAllocator.TrimRegion` | kernel/mmu.c:316-359 | the result is aligned, and the bitmap is as if only the aligned part had ever been taken |
| `VirtRegions.RegionAllocator.Alloc` | kernel/mmu.c:288-368 | an aligned region inside the range, disjoint from every live one, with exactly its own bits added; none only if there is no run long enough for any alignment |
| `VirtRegions.RegionAllocator.Release` | kernel/mmu.c:240-264 | gives back exactly what the allocation took |
| `PageTables.AfterMapExact` | arch/x86/gen_mmu.py:461-484 | the page-by-page map: every page in the range is as `EntryWanted` says, except page 0 of an identity map, and every other page as before |
| `PageTables.EntryWanted` | arch/x86/gen_mmu.py:251-265 | an entry is present exactly if that is asked for and supported; it has the frame asked for as far as the address mask goes, and exactly the flags asked for that the format supports |
| `PageTables.WayAllows` | arch/x86/gen_mmu.py:403-412 | the entries on the way to a page are present and allow writing and user access wherever their format knows these, so that the last entry alone decides |
| `PageTables.IndexIsDigit` | arch/x86/gen_mmu.py:230-233 | the index at a level is the digit of the page number at that level |
| `PageTables.TranslateIs` | arch/x86/gen_mmu.py:230-249 | walking from the top-level table finds what the flat map from paths to entries holds |
| `PageTables.WalkIsLeaf` | arch/x86/gen_mmu.py:230-249 | the same from any table on the way |
| `PageTables.PathDetermines` | arch/x86/gen_mmu.py:230-233 | the indices of all levels below one determine the page up to the span of that level, and it determines them |
| `PageTables.PathEqual` | arch/x86/gen_mmu.py:230-233 | two pages share a path exactly if they differ by multiples of the whole range |
| `PageTables.LeafSet` | arch/x86/gen_mmu.py:251-265 | writing an entry of a last-level table changes the translation of that path and of no other |
| `PageTables.LeafSetOk` | arch/x86/gen_mmu.py:251-265 | and keeps each table in one slot of one parent |
| `PageTables.NewChildLeaf` | arch/x86/gen_mmu.py:403-412 | a new table at a fresh address changes no translation |
| `PageTables.NewChildOk` | arch/x86/gen_mmu.py:403-412 | and keeps each table in one slot of one parent |
| `PageTables.PackWord` | arch/x86/gen_mmu.py:251-265 | address and flags packed into one word with disjoint masks can both be read back |
| `PageTables.FormatSpans` | arch/x86/gen_mmu.py:583-593 | the spans of the 2-, 3- and 4-level formats |
| `PageTables.PtableSet.constructor` | arch/x86/gen_mmu.py:338-351 | nothing is mapped |
| `PageTables.PtableSet.NewChildTable` | arch/x86/gen_mmu.py:403-412 | a linked empty table; all translations as before |
| `PageTables.PtableSet.Descend` | arch/x86/gen_mmu.py:414-426 | the tables on the path exist afterwards; all translations as before |
| `PageTables.PtableSet.MapPage` | arch/x86/gen_mmu.py:414-431 | the page translates to the frame and the supported flags, every other page as before; nothing when only reserving |
| `PageTables.PtableSet.Map` | arch/x86/gen_mmu.py:461-484 | the range translates as `AfterMapExact` says; misaligned arguments change nothing |
| `PageTables.PtableSet.Reserve` | arch/x86/gen_mmu.py:433-448 | leaf tables for every piece of the range exist afterwards, no translation changes; misaligned arguments change nothing |
| `Mutexes.InheritanceHolds` | kernel/mutex.c:105-280 | in every reachable state, whatever the priorities: no owner exactly if the count is 0, and then nobody waits; everybody but the owner has their own priority. If nobody is above the ceiling, the owner is at least as urgent as itself and as every waiter, and exactly as the best of them once each timed-out waiter has cleaned up |
| `Mutexes.UpheldIff` | kernel/mutex.c:82-89 | from the unlocked mutex the owner is at least as urgent as itself and every waiter on every run, exactly if nobody is above the ceiling or there are at most two threads and these are equally urgent |
| `Mutexes.LocksNest` | kernel/mutex.c:105-280 | over every run from the unlocked mutex: a thread owns it exactly as long as it has locked more often than unlocked, the lock count is the difference, and no two threads own it |
| `Mutexes.UnlockAsOften` | kernel/mutex.c:211-280 | a mutex locked n times is free after n unlocks and not before, for every n |
| `Mutexes.SafeUpholds` | kernel/mutex.c:105-280 | in those cases it is so on every run |
| `Mutexes.UnsafeFails` | kernel/mutex.c:105-280 | in all others there is a run on which it is not |
| `Mutexes.WaiterAboveCeilingIsNotServed` | kernel/mutex.c:147-158 | two locks: a thread above the ceiling waits, and the less urgent owner stays less urgent |
| `Mutexes.RunKeeps` | kernel/mutex.c:105-280 | over every run: lock count, owner, original priority and wait queue belong together and waiters are in priority order, whatever the priorities; and if nobody is above the ceiling the owner's priority is what is due or, while a timed-out waiter has still to clean up, better |
| `Mutexes.StepKeeps` | kernel/mutex.c:105-280 | a lock, a timeout, a clean-up or an unlock by any thread keeps owner, count, wait queue and priorities in step |
| `Mutexes.InheritExact` | kernel/mutex.c:82-89 | inheritance gives the more urgent of the two exactly if neither is above the ceiling |
| `Mutexes.LockKeeps` | kernel/mutex.c:105-158 | a lock keeps owner, count and queue in step, and the owner at least as urgent as due if nobody is above the ceiling |
| `Mutexes.ExpireKeeps` | kernel/mutex.c:147-168 | between a timeout and its clean-up the owner may be more urgent than due, never less |
| `Mutexes.CleanUpKeeps` | kernel/mutex.c:170-188 | after the clean-up the owner has exactly what is due, if nobody is above the ceiling |
| `Mutexes.UnlockKeeps` | kernel/mutex.c:211-277 | so does an unlock; the last one gives the owner its own priority back, whatever that is |
| `Mutexes.OwnerAboveCeilingLoses` | kernel/mutex.c:170-188 | three locks, a timeout and its clean-up: an owner above the ceiling ends below its own priority |
| `Mutexes.LockLends` | kernel/mutex.c:147-158 | a lock makes the owner at least as urgent as the caller exactly if it was, or the caller is not above the ceiling |
| `Mutexes.CleanUpExact` | kernel/mutex.c:170-188 | a clean-up leaves the owner as urgent as itself and the first waiter exactly if nobody waits or neither of them is above the ceiling |
| `Mutexes.Mutex.constructor` | kernel/mutex.c:55-71 | an unlocked mutex with every thread at its own priority, whatever that is |
| `Mutexes.Mutex.AdjustOwnerPrio` | kernel/mutex.c:91-103 | the owner, and nobody else, gets the priority |
| `Mutexes.Mutex.LockMutex` | kernel/mutex.c:105-168 | a free or own mutex is locked once more, else the caller is refused or waits at its place; with the source's return codes, and what the invariant says about priorities |
| `Mutexes.Mutex.ExpireWait` | kernel/mutex.c:147-168 | the waiter is gone, its clean-up still to come |
| `Mutexes.Mutex.CleanUpAfterTimeout` | kernel/mutex.c:170-196 | the clean-up is one step of the abstract mutex |
| `Mutexes.Mutex.UnlockMutex` | kernel/mutex.c:211-280 | one lock less; the last one frees the mutex or makes the first waiter the owner; anyone but the owner is refused and changes nothing; with the source's return codes |
| `Polls.NoLostWakeup` | kernel/poll.c:234-263 | over every interleaving: a thread that waits in k_poll has every event it asked for on the list of its object |
| `Polls.RegisteredPrefix` | kernel/poll.c:234-263 | over every run the events with a poller are among the first ones, as many as were counted, and all of those until something happens |
| `Polls.SignalWakes` | kernel/poll.c:441-478 | a signal takes the first registered event, marks it ready and wakes its thread if that waits, with the right code |
| `Polls.StepIdle` | kernel/poll.c:441-549 | if no event is listed at an object whose condition holds and has been signalled, a step keeps it so exactly if its signal, if it has one, finds at most one event on the list |
| `Polls.NoWaitForReady` | kernel/poll.c:234-335 | over every run whose signals find at most one event each: no thread waits in k_poll while the condition of an object it asked for holds and has been signalled |
| `Polls.SecondWaitsOn` | kernel/poll.c:526-549 | a run from the start on which one does: two threads wait for an object, its signal wakes the first, and the second, now the only one listed, waits on although the condition holds |
| `Polls.RaiseKeeps` | kernel/poll.c:526-549 | raising a poll signal, condition and signal under one lock, keeps every invariant of the calls under way |
| `Polls.ReturnsClean` | kernel/poll.c:288-353 | over every interleaving: after k_poll has returned none of its events is on a list or has a poller; their state bits are those from before the call and those set during it, and a result of 0 means that some were set during it |
| `Polls.RunTold` | kernel/poll.c:234-335 | over every run: a call still polls exactly if none of its events has become ready, waits only if none has, and one that may not wait returns 0 exactly if some has and -EAGAIN otherwise |
| `Polls.DecideSettles` | kernel/poll.c:308-335 | the look at is_polling settles on 0 exactly if some event has become ready, on -EAGAIN if none has and the call may not wait, and otherwise the call waits |
| `Polls.ReturnsWhatWasSettled` | kernel/poll.c:335-353 | once the code of a call is settled, by that look, a signal or a timeout, nothing that happens before it returns changes it |
| `Polls.ReadyExactly` | kernel/poll.c:234-286 | an event becomes ready, with the right bit, exactly when its object's condition holds as it is registered or a signal of its object finds it first on the list |
| `Polls.SuccessMeansReady` | kernel/poll.c:234-353 | over every run: a call that returns 0 found the condition of one of its objects to hold, or a signal of one of them got to it |
| `Polls.RunKeeps` | kernel/poll.c:175-353 | over every run: every listed event is registered and has a poller, lists are in priority order without repetition, a call that is still to wait has all events registered so far listed, and a call bound to return 0 has a ready event |
| `Polls.StepKeeps` | kernel/poll.c:175-353 | every critical section of any thread's call, and every signal, timeout, raise and change of a condition in between, keeps that |
| `Polls.RegisterKeeps` | kernel/poll.c:234-263 | a round of registration keeps listed events and events with a poller the same, in a prefix of the array |
| `Polls.DecideKeeps` | kernel/poll.c:308-335 | a call that goes to sleep still has all its events listed, and one that does not has a ready event or a refusal |
| `Polls.SignalKeeps` | kernel/poll.c:265-286 | a signal at any moment keeps listed events and events with a poller the same, and justifies a wake-up with success |
| `Polls.ClearKeeps` | kernel/poll.c:175-226 | a round of the clean-up keeps what is left registered a prefix, even with signals in between |
| `Polls.StartKeeps` | kernel/poll.c:288-306 | a new call by a thread whose last call has returned starts with none of its events listed, and disturbs no other call |
| `Polls.PollSystem.constructor` | kernel/poll.c:43-61 | no call under way and no event listed at any object |
| `Polls.PollSystem.AddEvent` | kernel/poll.c:112-135 | the event goes behind all whose threads are at least as urgent, whether the shortcut or the loop finds the place |
| `Polls.PollSystem.RegisterNext` | kernel/poll.c:234-263 | one round of the registration loop does what the abstract step does: ready, listed in priority order, or left alone |
| `Polls.PollSystem.HandleObjPollEvents` | kernel/poll.c:441-478 | a signal does what the abstract step does to the first listed event, its thread and the list |
| `Polls.PollSystem.SignalRaise` | kernel/poll.c:526-549 | raising a signal makes its condition hold and does what a signal does to the first listed event |
| `Polls.PollSystem.ClearLast` | kernel/poll.c:175-226 | one round of the clean-up loop does what the abstract step does to the last event still registered |
| `Polls.PollSystem.Start` | kernel/poll.c:288-306 | a new call with is_polling set and nothing registered |
| `Polls.PollSystem.LookAtPolling` | kernel/poll.c:308-335 | the call goes on to take back its registrations, to return -EAGAIN, or to wait, exactly as `DecideSettles` says |
| `MsgQueues.DeliveredInOrder` | kernel/msg_q.c:124-282 | over every run: accepted messages are those that have left, in that order, followed by those in the queue, hand-offs and admitted writers included; what a waiting reader was handed was delivered to it |
| `MsgQueues.UniformIff` | kernel/msg_q.c:124-282 | readers wait only at an empty and writers only at a full queue, on every run, exactly if the queue has room for at least one message |
| `MsgQueues.NoRoomMixes` | kernel/msg_q.c:124-282 | with room for none a reader and a writer wait side by side |
| `MsgQueues.GetTakesOldest` | kernel/msg_q.c:216-232 | a get hands over the oldest accepted message that is still there |
| `MsgQueues.LeaversAreTold` | kernel/msg_q.c:124-396 | over every run, for every capacity: a thread stops waiting exactly with the message that was put for it, with its own message accepted, with a time-out or with a purge, is told which, and nobody else is told anything |
| `MsgQueues.RunKeeps` | kernel/msg_q.c:124-396 | over every run: no more messages than there is room for, waiters in priority order, what was accepted is what has left followed by what is there, and with room for a message all waiters are of one kind |
| `MsgQueues.PutKeeps` | kernel/msg_q.c:124-184 | after a put accepted messages are still those that left followed by those there, and waiters of one kind |
| `MsgQueues.GetKeeps` | kernel/msg_q.c:216-282 | so they are after a get that lets a waiting writer in |
| `MsgQueues.TimeoutKeeps` | kernel/msg_q.c:168-177 | and after a waiter has given up |
| `MsgQueues.PurgeKeeps` | kernel/msg_q.c:376-396 | and after a purge, whose messages count as having left in order |
| `MsgQueues.StoreSlot` | kernel/msg_q.c:151-159 | copying a message to its place in the buffer changes no other place |
| `MsgQueues.HoldsPush` | kernel/msg_q.c:151-159 | the ring then holds the old messages and the new one, around the end of the buffer too |
| `MsgQueues.HoldsPop` | kernel/msg_q.c:228-235 | after the read pointer has moved the ring holds all but the first |
| `MsgQueues.Reaches` | kernel/msg_q.c:341-352 | the byte offsets of a peek find the right message before and beyond the end of the buffer |
| `MsgQueues.MessageQueue.constructor` | kernel/msg_q.c:39-50 | the empty buffer stands for an empty queue of the given size, size 0 included |
| `MsgQueues.MessageQueue.Advance` | kernel/msg_q.c:155-158 | a pointer to a place in the buffer points to the next one, the first after the last |
| `MsgQueues.MessageQueue.Append` | kernel/msg_q.c:151-159 | the ring holds the messages it held and the new one last |
| `MsgQueues.MessageQueue.Put` | kernel/msg_q.c:124-184 | a put on the ring is a put on the bounded queue, with the source's return codes |
| `MsgQueues.MessageQueue.Get` | kernel/msg_q.c:216-282 | a get on the ring is a get on the bounded queue, and returns its first message |
| `MsgQueues.MessageQueue.PeekAt` | kernel/msg_q.c:330-363 | returns the message at that place of the bounded queue, or that there is none |
| `MsgQueues.MessageQueue.Purge` | kernel/msg_q.c:376-396 | queue and waiters are empty, every waiter told so |
| `MsgQueues.MessageQueue.Timeout` | kernel/msg_q.c:168-177 | the waiter is gone and told so; messages and other waiters are as before |
| `Mailboxes.NoPairWaits` | kernel/mailbox.c:210-439 | over every run of any number of mailboxes: a sender and a receiver that would match never wait at one mailbox at the same time |
| `Mailboxes.PoolPartition` | kernel/mailbox.c:40-76 | over every run each descriptor of the pool is exactly one of free, allocated and not yet sent, queued, or matched and not disposed of; none is on the free stack twice |
| `Mailboxes.MatchedOnce` | kernel/mailbox.c:210-293 | over every run: a message that has been matched stays matched to that one receiver |
| `Mailboxes.OnePlace` | kernel/mailbox.c:155-187 | a sender, thread or descriptor, is on one queue or with one receiver at most |
| `Mailboxes.MostUrgentReceives` | kernel/mailbox.c:230-267 | of the receivers that could take a message, a most urgent one gets it |
| `Mailboxes.MostUrgentSends` | kernel/mailbox.c:398-413 | of the senders whose message a receiver could take, a most urgent one is matched |
| `Mailboxes.ReceiverLeaves` | kernel/mailbox.c:210-293 | a receiver stops waiting only with a message addressed to it, from whom it asked for, which it then holds, or with a time-out, and is told which |
| `Mailboxes.SenderLeaves` | kernel/mailbox.c:382-431 | a sender leaves its queue only matched to the receiver that comes, which it was addressed to and which asked for it, or with a time-out, and is told so |
| `Mailboxes.SenderReleased` | kernel/mailbox.c:155-187 | over every run: a matched sender goes on exactly when its receiver disposes of the message; it learns the size taken, a thread runs again, a descriptor is free again and its semaphore given |
| `Mailboxes.MatchTransfers` | kernel/mailbox.c:112-146 | the receiver gets the start of the data, cut to the smaller size; each side learns the other's identity and info; they still match |
| `Mailboxes.PayloadArrives` | kernel/mailbox.c:112-349 | over every run: as long as a message has not been disposed of its receiver reads the start of what was put under the serial number it was matched to, cut to the smaller of the two sizes, or nothing if it dropped the data; sender and info are those of that put, which was addressed to this receiver or anyone and came from whom it asked for |
| `Mailboxes.StepCarries` | kernel/mailbox.c:112-349 | every step keeps queued messages as they were put and received ones tied to the put they came from |
| `Mailboxes.RunKeeps` | kernel/mailbox.c:40-439 | over every run: queues in priority order without repetition, every sender and receive descriptor in the one place that its state says, no matching pair waiting, the free stack without repetition, and matches never forgotten |
| `Mailboxes.StepKeeps` | kernel/mailbox.c:40-439 | every send, receive, disposal, allocation and timeout at any mailbox keeps all that |
| `Mailboxes.StepRemembers` | kernel/mailbox.c:112-146 | no step rematches a matched message |
| `Mailboxes.AllocKeeps` | kernel/mailbox.c:40-43 | an allocation keeps every descriptor in exactly one place and all else as it should be |
| `Mailboxes.PutKeeps` | kernel/mailbox.c:210-293 | a send, matched, refused or queued, leaves no matching pair waiting and every sender and descriptor in one place |
| `Mailboxes.GetKeeps` | kernel/mailbox.c:382-431 | so does a receive |
| `Mailboxes.DisposeKeeps` | kernel/mailbox.c:155-187 | so does a disposal, after which the sender matched to this receiver is with none |
| `Mailboxes.TxTimeoutKeeps` | kernel/mailbox.c:285-292 | so does the end of a sender's wait |
| `Mailboxes.RxTimeoutKeeps` | kernel/mailbox.c:424-431 | so does the end of a receiver's wait |
| `Mailboxes.InitialOk` | kernel/mailbox.c:54-78 | it holds at the start, all descriptors free |
| `Mailboxes.MailboxSystem.constructor` | kernel/mailbox.c:54-90 | the loop pushes every descriptor once |
| `Mailboxes.MailboxSystem.AsyncAlloc` | kernel/mailbox.c:40-43 | the descriptor on top of the free stack, which is then held by the caller alone |
| `Mailboxes.MailboxSystem.MessageMatch` | kernel/mailbox.c:112-146 | tells whether the two fit and rewrites both descriptors only then |
| `Mailboxes.MailboxSystem.FindReceiver` | kernel/mailbox.c:230-267 | the search stops at the first receiver that fits and changes no descriptor before it |
| `Mailboxes.MailboxSystem.MessagePut` | kernel/mailbox.c:210-293 | a send is one step of the abstract mailboxes; the outcome says whether it was matched, was refused and changed no queue, or waits at its place |
| `Mailboxes.MailboxSystem.FindSender` | kernel/mailbox.c:398-413 | the search stops at the first sender that fits and changes no descriptor before it |
| `Mailboxes.MailboxSystem.Receive` | kernel/mailbox.c:382-431 | a receive is one step of the abstract mailboxes; the outcome says whether it was matched, was refused and changed no queue, or waits at its place for what it asked for |
| `Mailboxes.MailboxSystem.Dispose` | kernel/mailbox.c:155-187 | the sender learns the size taken and runs again; a descriptor goes back to the pool and its semaphore is given |
| `Mailboxes.MailboxSystem.DataGet` | kernel/mailbox.c:335-349 | the buffer gets exactly the message's data, or the data is dropped; the message is disposed of either way |
| `Mailboxes.MailboxSystem.DataCheck` | kernel/mailbox.c:367-380 | a received message is disposed of at once exactly if there is a buffer for its data or no data; otherwise its sender goes on waiting |
| `Mailboxes.MailboxSystem.TxTimeout` | kernel/mailbox.c:285-292 | the sender is off the queue and told so; all else is as before |
| `Mailboxes.MailboxSystem.RxTimeout` | kernel/mailbox.c:424-431 | the receiver is off the queue and told so; all else is as before |
| `MemSlabs.Conservation` | kernel/mem_slab.c:104-294 | over every run, holders writing to their blocks at will: the free list is the chain in memory, without repetition, of exactly blocks - used blocks; free and held blocks are all blocks and none is both; a thread waits only when the list is empty |
| `MemSlabs.GrantsAreExclusive` | kernel/mem_slab.c:219-294 | whoever is given a block, at once or after waiting, is given one that nobody held or the one just given back |
| `MemSlabs.WaitersServed` | kernel/mem_slab.c:219-294 | over every run: a thread stops waiting only as a most urgent waiter, with the block just freed, or with a time-out, and is told which |
| `MemSlabs.RunKeeps` | kernel/mem_slab.c:219-294 | over every run: the chain in memory is the free list, without repetition and disjoint from the held blocks, the two together are all blocks and number as `used` says, and waiting means that the list is empty |
| `MemSlabs.AllocKeeps` | kernel/mem_slab.c:219-266 | an allocation keeps the chain in memory, the held blocks and their number in agreement |
| `MemSlabs.FreeKeeps` | kernel/mem_slab.c:268-294 | so does a release, whether the block goes to the list or to a waiter |
| `MemSlabs.WriteKeeps` | kernel/mem_slab.c:219-266 | a holder that writes to its block cannot disturb the list |
| `MemSlabs.ChainTail` | kernel/mem_slab.c:226-230 | taking the first block leaves the chain of the others |
| `MemSlabs.ChainPush` | kernel/mem_slab.c:287-289 | a block in front of the chain makes a chain |
| `MemSlabs.FreshInv` | kernel/mem_slab.c:104-123 | a freshly built list holds every block |
| `MemSlabs.MemSlab.constructor` | kernel/mem_slab.c:171-190 | a slab with nothing used, held or waiting, its free list still to be built |
| `MemSlabs.MemSlab.CreateFreeList` | kernel/mem_slab.c:104-123 | the loop chains the blocks in address order and writes to nothing else; with 32-bit and 64-bit sizes alike, the slab is in order exactly if it has a block or sizes have 32 bits: with 64 bits the wrapped 32-bit count of a slab of no blocks sends the loop far beyond the buffer, with 32 bits the end lies before the buffer; misaligned slabs are refused unchanged |
| `MemSlabs.MemSlab.Alloc` | kernel/mem_slab.c:219-266 | the first free block, which nobody held and the caller now does, or a wait at its place in the queue, or the source's refusal, which changes nothing |
| `MemSlabs.MemSlab.Free` | kernel/mem_slab.c:268-294 | straight to the first waiter, who is told, or back to the front of the list when nobody waits |
| `MemSlabs.MemSlab.Timeout` | kernel/mem_slab.c:250-266 | the waiter is gone and told so; blocks and other waiters are as before |
| `MemSlabs.MemSlab.PtrIsGood` | kernel/mem_slab.c:208-216 | the offset test holds exactly for block addresses |
| `ModuleSort.Sort` | scripts/zephyr_module.py:734-764 | ends with an order exactly if no dependency is missing, repeated in its list or cyclic; the order has every module once, after all it depends on; otherwise the modules reported are exactly those from which a missing, repeated or cyclic dependency can be reached |
| `ModuleSort.DoneIsOrder` | scripts/zephyr_module.py:742-764 | if none remains, the result is an order |
| `ModuleSort.WalkGoesBack` | scripts/zephyr_module.py:742-764 | following dependencies goes backwards in an order, by at least one place for each step |
| `ModuleSort.SettledIsSafe` | scripts/zephyr_module.py:742-754 | from a sorted module nothing missing, repeated or cyclic can be reached |
| `ModuleSort.StuckIsDoomed` | scripts/zephyr_module.py:756-762 | from every module of a set that holds itself back something missing, repeated or cyclic can be reached |
| `ModuleSort.LeftIsDoomed` | scripts/zephyr_module.py:756-762 | the modules left over are exactly those from which something missing, repeated or cyclic can be reached |
| `ModuleSort.SomeoneDoomed` | scripts/zephyr_module.py:756-762 | there is such a module exactly if some dependency is missing, repeated or cyclic |
| `ModuleSort.StrikeOut` | scripts/zephyr_module.py:747-752 | the inner loop strikes the name out once in each waiting list and picks those that are now empty |
| `ModuleSort.RemoveAll` | scripts/zephyr_module.py:753-754 | the modules picked, and no others, stop waiting |
| `ModuleSort.NextRound` | scripts/zephyr_module.py:742-754 | each round keeps every module in exactly one of the lists of sorted, ready and waiting modules |
| `ModuleSort.NextMet` | scripts/zephyr_module.py:742-754 | each round keeps everything sorted or ready behind all it depends on |

## Left out

- Scheduling itself: multiprocessor and meta-interrupt scheduling, context switches, deadlines, time slicing; only the order of wait queues is used.
- Triggered work in kernel/poll.c; pollers are threads in `k_poll`, and whether an object is ready is a parameter of the steps.
- Integer widths: counters, ticks, sizes and addresses are unbounded integers, and a page-table entry is a frame and a set of flags (`PageTables.PackWord` relates these to words).
- Programming of the hardware clock.
- `pipe_buffer_flush`, and allocation and clean-up of pipes, message queues and slabs: a get, and calls of the heap.
- `k_work_cancel_delayable_sync`: a cancel of a delay followed by the synchronous cancel that is modelled; threads of work queues, and yielding between items.
- Paging with several mappings of one frame or with interrupts allowed while pages move, statistics, boot-time reservations, direct mapping, and the clean-up when an anonymous mapping fails half-way.
- `is_mapped`, large pages, permissions of regions and the output file of the page-table generator.
- Reading of module descriptions and the text of error messages in the module script.
- User-mode wrappers, permissions, tracing, statistics, object cores.
- Semaphores, stacks, queues, futexes, condition variables and memory domains: easy members, or no invariant that holds over all runs.
- Timeouts.TimeoutList.AddTimeout: the timeout must not be pending already, as the source asserts.
- Pipes.Pipe.Flush: the largest size a get can ask for is a parameter that is at least the length of the stream, since the source asks for the largest number there is.
- Paging.MemoryManager.PageFault: when the page is paged out and no frame is free a victim and a location for it must be found, as the source asserts.
- Paging.MemoryManager.constructor: all frames are free; those that are reserved or mapped at boot are not represented.
- VirtRegions.RegionAllocator.Alloc: size and alignment are whole numbers of pages, at least one each, as all callers pass them.
- PageTables.PackWord: stands beside the model, whose entries are a frame and a set of flags; no method computes words.
- PageTables.PtableSet.Map: the address mask of the tables must have room for the addresses of the tables to be added; the tables are values in a map that a method replaces, so aliasing between table objects is not modelled.
- PageTables.PtableSet.NewChildTable: not for tables beyond the address mask, whose addresses the source would truncate.
- PageTables.PtableSet.Descend: not for tables beyond the address mask, whose addresses the source would truncate.
- PageTables.PtableSet.MapPage: not for tables beyond the address mask, whose addresses the source would truncate.
- PageTables.PtableSet.Reserve: not for tables beyond the address mask, whose addresses the source would truncate.
- Mutexes.InheritanceHolds: one mutex, and priorities that only its own code changes.
- Polls.PollSystem.Start: the events passed have no poller yet and name objects that exist.
- MsgQueues.MessageQueue.constructor: not for messages of size 0, with which the source's assertion on its write pointer cannot hold.
- Mailboxes.MailboxSystem.Receive: a receive descriptor is not used again before its message has been disposed of.
- MemSlabs.MemSlab.CreateFreeList: not for blocks of size 0, with which the source's loop does not end.
- MemSlabs.MemSlab.Free: the block given back is one that was given out and not given back since.
