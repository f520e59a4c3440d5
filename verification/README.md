# Yalnix kernel model

A Dafny model of a small multi-process kernel, with proofs about every run of it. The kernel keeps
shared global queues, page tables and synchronisation objects, and changes them in system calls and
traps. The model has two transition systems and the code that implements them.

**The kernel machine** (`Scheduler`, `KernelSteps`). A step is one segment of a system call, from
entry or wake-up to return or to the next `normal_schedule`, or one trap. A process inside the kernel
carries a tag for the point where it will go on (`RetryAcquire`, `ScanDead`, `TtySent`, ...). A step
changes the objects and then makes one scheduler move: wake some waiters, then return, block, fork,
exit or be preempted. `Run` is any sequence of steps from boot that the guards allow, so a lemma
about a `Run` speaks of every interleaving. A `Log` in the state records history (acquires and
releases, bytes in and out, arrivals, transmissions, exits and what Wait returned); no step reads it.

**The memory machine** (`Memory`). Free list, kernel and user page tables, kernel stacks, saved
contexts and the contents of physical frames. Brk, stack faults, Fork, Exec, Exit, context switches,
user stores and kernel execution are its events; which process is switched to is left open, so the
results hold for every scheduler.

**The code** (`KernelCode`, `MemoryCode`, `ArgStack`, `LinkedList`). The C functions as classes and
methods with the same loops and in-place updates. What `Kernel` and `MemoryManager` do on an event is
proved to be the step of their machine, and `PerformAll` (in `KernelDriver` and in `MemoryManager`)
takes any sequence of events: the states of the object are a run, so the theorems about runs hold of
it. `LinkedList` works on heap nodes and is proved against sequences, which is what every queue is
in the rest of the project.

| file | content |
|---|---|
| `Scheduler`, `ReadyQueue` | one place per process; the ready queue refines a FIFO with idle as fallback |
| `KernelSteps`, `KernelRuns` | the kernel machine, its runs, Delay and fairness over runs |
| `Locks`, `Cvars`, `Pipes`, `Semaphores`, `Terminals`, `Families`, `DeadList` | invariants and theorems over all runs, object by object |
| `Calls`, `LockCalls`, `ObjectCalls`, `TtyCalls`, `KinCalls`, `ReclaimCalls`, `Ids` | what every call and trap returns, changes and wakes, over all runs, read off the lists and the history |
| `Reclaims` | what a reclaim does to waiters and retries, over all runs |
| `WaitTwice`, `WaitFails`, `LostReader`, `HalfReclaim`, `StaleFlag`, `SampleRuns`, `LostFrames` | runs on which the code falls short |
| `Memory`, `Frames`, `AddressSpaces`, `Isolation`, `Conservation`, `Boot` | frames, isolation, context switches, conservation |
| `MemoryCalls`, `Programs` | what Brk, faults, Exec, Exit and first turns do, in addresses, pages and contents |
| `KernelCode`, `KernelDriver`, `MemoryCode`, `ArgStack`, `LinkedList` | the imperative code |

## Assumptions

- Kernel code is not preempted; allocation of kernel records succeeds and returns zeroed memory.
- Idle (pid 1) makes no system call and does not fault (idle.c:6-12).
- A physical frame is addressed by its number; the hardware's page table register is `installed`.
- The kernel break does not move while frames are gathered.
- A C pointer to a lock, pipe or condition variable is an index into a list that only grows; `listed`
  says whether the kernel's list still has it.

## Where the code does not do what it is meant to

The model does what the code does. For each of these there is a run or an input on which it goes
wrong, and a statement of exactly when.

- The `destroy_*_info` loops re-test a length that they shrink and move only half of the waiters
  (scheduler.c:266, 328, 387): all are woken if and only if there is at most one
  (`ReclaimWakesHalf`, `ReclaimWakesAllIff`; a run: `ReclaimStrands`). Whoever is left on a lock or a
  condition variable never runs again (`LeftBehindForEver`, `CvarLeftForEver`, `StrandedForEver`).
  A reader left on a pipe can still be woken, if and only if another retry reads from the
  reclaimed pipe (`LeftoverWokenIff`; a run: `LeftoverWoken`); if nobody is about to retry it
  stays for ever (`PipeLeftForEver`).
- `exist` is never reset (syscall.c:709-720, 954-964): a process notices the reclaim if and only if it
  blocked by its first attempt and no newer object has the same id (`RetryOfReclaimedLock`,
  `RetryOfReclaimedPipe`). Otherwise it can block for ever on a reclaimed object, even as the only
  waiter (`WaiterFooled`, `FooledWaiterStays`, `ReaderFooled`, `FooledReaderStays`).
- Wait does not reset its location before the second scan (syscall.c:233-243). The entry it reports
  leaves the list if and only if the dead list was empty when it blocked (`RescanRemovesIff`);
  another entry leaves if and only if the wrong location is inside the list (`TakesOtherIff`). So
  an exit can be reported twice (`ExitCollectedTwice`, exactly when: `ReportedAgainIff`), a woken
  Wait can fail (`WokenWaitFails`, exactly when: `WaitFailsIff`), and the exits add up if and only if
  no scan used a stale location (`ExitsAccountedIff`).
- Wait answers ERROR when only exited children remain (syscall.c:197): `WaitCollectsIff`; a run:
  `DeadChildNotCollected`.
- A pipe write or read wakes one waiter (syscall.c:738-749, 837-847). Holding B bytes keeps a retry
  under way on all runs with requests of at most L bytes if and only if B >= L (`ChainedIff`,
  `ServedIff`; runs for any two lengths: `ReaderLeftBehind`).
- Brk neither unmaps when lowered nor looks at the stack (syscall.c:20-34): it loses frames if and only
  if a page it gets to map is mapped already (`BrkLosesIff`; runs: `BrkLosesFrame`, `BrkLosesAfterBoot`).
- A stack fault without enough frames maps frame 0 (trap.c:103-110), and so does a Fork that runs out
  (syscall.c:80-87): frames stay exclusive if and only if there are enough (`GrowNeedsFrames`,
  `ForkNeedsFrames`; runs: `FrameZeroAfterBoot`).
- Ids come from `reclaim_list.len + 1` (syscall.c:608, 885, 1048): after a Reclaim the next id is that of another object if
  and only if it was not the newest that went (`ReclaimBreaksIdsIff`); without a Reclaim ids are
  distinct (`IdsAreDistinct`; a run: `SameIdTwice`).
- A kernel break inside a page at boot loses that page (kernel.c:163-192, 194-242): `BareAccountsIff`,
  `CutPageIsLost`; an input: `UnalignedBreak`.

## Model

| member | source | states |
|---|---|---|
| `Scheduler.IdleRunnable` | scheduler.c:483-518 | idle is active or ready and in no wait list, so a non-idle process always leaves somebody to switch to |
| `Scheduler.PlacesDisjoint` | syscall.c:223-228 | a waiting process is in no other wait list, not runnable, and in its list once |
| `Scheduler.MoveKeeps` | syscall.c:1334-1367 | every wake-up followed by any ending keeps every live process in exactly one place |
| `Scheduler.BlockingSwitches` | syscall.c:1338-1366 | a blocking or exiting process is really switched away from; the empty-queue branch is not taken |
| `Scheduler.MoveLists` | syscall.c:946-951 | a step changes only the wait list it wakes from and the one its caller joins, at the tail |
| `Scheduler.HeadsMove` | syscall.c:1168-1189 | waking n waiters moves the first n, in order, to the tail of the ready queue |
| `Scheduler.MoveOthers` | scheduler.c:474-522 | other processes keep their kernel position and stay runnable; nobody appears or dies but the caller and its child |
| `Scheduler.MoveSelf` | syscall.c:1334-1367 | where each ending leaves the process that made the step |
| `ReadyQueue.RefinesFifo` | scheduler.c:474-522 | every move of the ready queue with its idle rotation is a move of a plain FIFO of non-idle processes |
| `ReadyQueue.IdleIsFallback` | scheduler.c:499-513 | idle is dispatched only when nobody else is ready |
| `ReadyQueue.MovesUp` | scheduler.c:474-522 | a ready process moves up exactly one place per scheduling decision |
| `ReadyQueue.TurnComes` | scheduler.c:474-522 | the decision after those dispatches it |
| `ReadyQueue.SleeperStep` | scheduler.c:427-468 | a sleeper loses one tick per clock tick and nothing otherwise, and is ready when they are used up |
| `ReadyQueue.SleepersInOrder` | scheduler.c:427-468 | the sleepers whose time has come, and those that stay, are taken from the list in order |
| `KernelRuns.EveryProcessHasOnePlace` | syscall.c:1334-1367 | on every run every live process is in exactly one place exactly once, and idle is active or ready |
| `KernelRuns.BlockingAlwaysSwitches` | syscall.c:346-355 | on every run a blocking or exiting step hands over to another, live process |
| `KernelRuns.StaysSuspended` | syscall.c:1334-1367 | on every run a process that blocks is found, when it next runs, at the point where it blocked |
| `KernelRuns.RunIsMoveRun` | scheduler.c:474-522 | every kernel run is, for the ready queue, a run of its moves |
| `KernelRuns.FairTurn` | scheduler.c:474-522 | on every run a process with j others ahead is dispatched by exactly the (j+1)-th decision |
| `KernelRuns.DelaySleeps` | syscall.c:381-399 | until the d-th tick after Delay(d) the caller sleeps with exactly the remaining ticks |
| `KernelRuns.DelayWakes` | scheduler.c:427-468 | the d-th tick after Delay(d) makes the caller runnable |
| `Calls.EventsIff` | trap.c:21-65 | what can happen at any point of a run, and nothing else |
| `LockCalls.InsideIff` | syscall.c:937-977 | the record of a lock says who is inside according to the history |
| `LockCalls.AcquireOutcome` | syscall.c:921-981 | ERROR without the lock; a vacant lock is taken and 0 returned; for an occupied one the caller is the newest waiter |
| `LockCalls.RetryOutcome` | syscall.c:943-977 | a woken caller tries a listed lock again, with the same two outcomes and never ERROR |
| `LockCalls.ReleaseOutcome` | syscall.c:984-1028 | ERROR from outside; from inside the lock is vacant afterwards and its oldest waiter ready |
| `LockCalls.CvarWaitOutcome` | syscall.c:1202-1233 | ERROR from outside; from inside the lock is vacant and the caller the newest waiter, or ERROR without a condition variable |
| `LockCalls.WokenCvarWait` | syscall.c:1235-1262 | a woken CvarWait returns ERROR if and only if the condition variable or the lock is gone; else it is inside the lock with 0, or waits for it |
| `KinCalls.ForkOutcome` | syscall.c:40-103 | the pids both sides find, the child's place in family and ready queue, and that nothing else changes |
| `KinCalls.ExitOutcome` | syscall.c:257-362 | death, orphans, the entry with its status, the parent's list, and the wake-up of a waiting parent |
| `KinCalls.WaitOutcome` | syscall.c:159-228 | ERROR, the first entry of an own child, or the wait list, each exactly when |
| `KinCalls.RescanOutcome` | syscall.c:231-253 | what a woken Wait returns and which location it removes |
| `Locks.LocksAreSafe` | syscall.c:937-977 | on every run the flag and owner of each lock agree with its acquire and release history, and a free listed lock with waiters has a runnable process about to retry it |
| `Locks.MutualExclusion` | syscall.c:937-977 | on every run at most one process is between an acquire and its release, and it is the recorded owner |
| `Locks.OnlyOwnerReleases` | syscall.c:991-1023 | a release is made only by the process inside, which is then outside |
| `Locks.CvarWaitReturnsLocked` | syscall.c:1235-1258 | CvarWait returns 0 only when the caller is inside the named lock again |
| `Cvars.CvarStep` | syscall.c:1111-1128 | the whole effect of any step on one wait list: who leaves from the head (one, all, half or nobody), who joins at the tail, and where they go |
| `Cvars.CvarWaitQueues` | syscall.c:1215-1233 | release and enqueue are one step; the caller is the newest waiter |
| `Cvars.CvarWaitersKept` | syscall.c:1227-1233 | nobody leaves the list but by a signal, broadcast or successful reclaim of that same condition variable |
| `Cvars.SignalMovesOldest` | syscall.c:1111-1128 | Signal moves exactly the oldest waiter to the tail of the ready queue |
| `Cvars.BroadcastMovesAll` | syscall.c:1168-1189 | Broadcast moves all waiters, in order |
| `Cvars.WaiterMovesUp` | syscall.c:1215-1233 | on every run a waiter is behind exactly those that were ahead of it and have not been signalled |
| `Cvars.WaiterIsReached` | syscall.c:1111-1128 | the Signal after those, or any Broadcast before, makes it ready |
| `Cvars.WaiterStays` | syscall.c:1227-1233 | until then it stays blocked |
| `ObjectCalls.CvarSignalOutcome` | syscall.c:1080-1138 | ERROR, or 0 and exactly the oldest waiter ready |
| `ObjectCalls.CvarBroadcastOutcome` | syscall.c:1141-1199 | ERROR, or 0 and all waiters ready in order |
| `Pipes.PipesAreStreams` | syscall.c:700-736 | on every run bytes accepted are bytes delivered followed by bytes held, and at most 4096 are held |
| `Pipes.WriteAccepts` | syscall.c:816-835 | a write accepts exactly min(len, room), the first bytes of its data, and reports that number |
| `Pipes.ReadDelivers` | syscall.c:722-736 | a read that returns 0 delivered exactly len bytes, the oldest undelivered ones |
| `ObjectCalls.PipeReadOutcome` | syscall.c:650-761 | ERROR, the first len bytes at once if they are there, or the end of the wait list |
| `ObjectCalls.RetryReadOutcome` | syscall.c:700-757 | a woken reader of a listed pipe tries again with the same length |
| `ObjectCalls.PipeWriteOutcome` | syscall.c:764-858 | ERROR, or as many bytes as fit, their number, and the oldest reader ready |
| `ObjectCalls.InitOutcome` | syscall.c:584-647 | a new pipe, lock or condition variable: its id, its record, empty and unlocked |
| `ObjectCalls.DelayOutcome` | syscall.c:370-405 | ERROR, 0 at once, or the sleep list with the full number of ticks |
| `Pipes.NoReaderLeftBehind` | syscall.c:738-749 | if no blocked reader asks for more than L, a pipe with L bytes and a waiter always has a runnable process about to retry (readers of one length are a special case) |
| `LostReader.ReaderLeftBehind` | syscall.c:837-847 | for any two lengths, a run on which a reader waits for bytes that are there and nobody is about to read |
| `LostReader.ChainedIff` | syscall.c:738-749 | B bytes keep a retry under way on all runs with requests of at most L if and only if B >= L (or no request blocks, or no pipe holds B) |
| `LostReader.ServedIff` | syscall.c:837-847 | the same where only waiters that could be served count |
| `LostReader.LeftoverWoken` | scheduler.c:264-281 | a run on which a reader left behind by a reclaim is woken by a read from the reclaimed pipe |
| `Semaphores.SemaphoresCount` | syscall.c:1415-1427 | on every run count is signals minus waits, the wait list is max(0, -count) long and holds the latest arrivals, and semaphore k is at list position k+1 |
| `Semaphores.PassedIsMin` | syscall.c:1464-1471 | the waits let through are the first min(waits, signals), in arrival order |
| `Semaphores.PassedInOrder` | syscall.c:1415-1427 | the same, from the counter and the list alone |
| `ObjectCalls.SemInitOutcome` | syscall.c:1370-1389 | the next id, returned, with count 0 |
| `ObjectCalls.SemSignalOutcome` | syscall.c:1392-1430 | one more, 0 returned, and the oldest waiter ready if there is one |
| `ObjectCalls.SemWaitOutcome` | syscall.c:1433-1474 | one less; 0 at once if and only if the count was positive, else the wait list |
| `ObjectCalls.LetThroughReturns` | syscall.c:1464-1474 | who was let through, or has slept enough, returns 0 |
| `Terminals.TerminalsAreExclusive` | syscall.c:525-580 | on every run a terminal is busy exactly while one transmission is in flight, never more, and its sender is blocked behind it |
| `Terminals.WriteCompletes` | syscall.c:540-580 | a blocked TtyWrite that returns made ceil(len/1024) transmissions of at most 1024 bytes, summing to len, all completed |
| `TtyCalls.TtyWriteOutcome` | syscall.c:480-580 | ERROR, len at once for nothing to write, a chunk in flight on an idle terminal, or the io list behind a busy one |
| `TtyCalls.WokenWriteOutcome` | syscall.c:525-580 | a woken writer goes on with what it has to go, in the same way |
| `TtyCalls.TransmittedOutcome` | trap.c:182-210 | the terminal is free, its first writer in the io list is last in the ready queue, all others keep their order, and nobody is woken if and only if there is none |
| `TtyCalls.SenderIsWoken` | trap.c:192-207 | the only writer on a terminal is made ready when its bytes are through |
| `Families.ProcessesFormAForest` | syscall.c:274-300 | on every run children lists and parent pids agree, without duplicates, and parents are live and older |
| `Families.ChildIffParent` | syscall.c:58-62 | c is listed by P, once, if and only if c names P; then P < c |
| `Families.WaitersHaveLiveChildren` | syscall.c:197-228 | on every run whoever is in `wait_list` has a live child and no entry to collect |
| `Families.WaitCollectsIff` | syscall.c:197-221 | Wait collects if and only if an entry and a live child exist; without a live child it is ERROR |
| `DeadList.EntriesAreDistinctExits` | scheduler.c:216-240 | on every run entries and reports are exits that happened, entries are distinct, and nobody exits twice |
| `DeadList.TakesOtherIff` | syscall.c:233-248 | on every run an entry leaves the list unreported if and only if a second scan removes it by the wrong location |
| `DeadList.RescanRemovesIff` | syscall.c:233-248 | on every run the second scan removes the entry it reports if and only if the dead list was empty when the Wait blocked |
| `DeadList.WaitFailsIff` | syscall.c:231-253 | on every run a woken Wait returns ERROR if and only if another second scan took its last entry and no child has exited since; otherwise it returns a child of its own with its status |
| `DeadList.WokenWaitSucceeds` | syscall.c:231-253 | without such a removal in between, a woken Wait succeeds |
| `DeadList.ExitsAccountedIff` | scheduler.c:216-240 | on every run exits are the dead list plus what was reported, each once, if and only if no second scan used a stale location |
| `DeadList.CollectedAtMostOnce` | syscall.c:206-221 | then no exit is reported twice or reported and still listed |
| `DeadList.ReportedAgainIff` | syscall.c:203-221 | after a stale second scan the caller's next Wait reports the same exit again if and only if no other scan took it meanwhile |
| `WaitFails.WokenWaitFails` | syscall.c:231-253 | a run on which a woken Wait returns ERROR because its entry was taken |
| `WaitFails.DeadChildNotCollected` | syscall.c:197-200 | a run on which Wait returns ERROR although an exited child is listed |
| `WaitTwice.ExitCollectedTwice` | syscall.c:233-248 | a run on which one exit is reported twice |
| `Reclaims.ReclaimWakesHalf` | scheduler.c:264-281 | reclaiming any object moves the older half of its waiters, rounded up and in order, and all of them if and only if there is at most one |
| `ReclaimCalls.ReclaimUnknown` | syscall.c:1270-1331 | an id without a record is ERROR and nothing changes |
| `ReclaimCalls.ReclaimPipeOutcome` | scheduler.c:244-302 | the first listed pipe goes, with its record; ERROR without one |
| `ReclaimCalls.ReclaimCvarOutcome` | scheduler.c:368-423 | the same for a condition variable |
| `ReclaimCalls.ReclaimLockOutcome` | scheduler.c:307-363 | 0 if and only if a listed lock with the id has nobody inside or the caller; that lock goes; otherwise ERROR and nothing changes |
| `Ids.RecordsMatchObjects` | syscall.c:606-640 | on every run there are as many records of an id and kind as listed objects |
| `Ids.IdsAreDistinct` | syscall.c:608 | without a Reclaim all ids are distinct, across the kinds |
| `Ids.NewIdTakenIff` | syscall.c:608 | an id is in use if and only if a record has it |
| `Ids.ReclaimBreaksIdsIff` | syscall.c:1318-1322 | after a first Reclaim the next id is in use if and only if it was not the newest object that went |
| `Ids.SameIdTwice` | syscall.c:608 | a run after which two listed pipes have one id |
| `Reclaims.ReclaimWakesAllIff` | scheduler.c:323-341 | reclaiming a lock leaves half of the waiters, none if and only if there was at most one |
| `Reclaims.GoneStep` | syscall.c:1270-1331 | no step re-lists a reclaimed lock or wakes its waiters |
| `Reclaims.LeftBehindForEver` | scheduler.c:323-341 | on every run a process waiting for a reclaimed lock is never runnable again |
| `Reclaims.CvarLeftForEver` | scheduler.c:382-401 | the same for a reclaimed condition variable |
| `Reclaims.LeftoverWokenIff` | syscall.c:738-749 | on every run a waiter of a reclaimed pipe is woken if and only if it is the first and a retry still reads from the pipe |
| `Reclaims.PipeLeftForEver` | scheduler.c:264-281 | with nobody about to retry, a waiter of a reclaimed pipe never runs again |
| `Reclaims.RetryOfReclaimedLock` | syscall.c:952-977 | on every run: ERROR if and only if the block was a first attempt and the id is free; otherwise it blocks if the lock was locked and takes it if not |
| `Reclaims.FooledForEver` | syscall.c:952-968 | a retry that blocks on a reclaimed lock never runs again |
| `Reclaims.RetryOfReclaimedPipe` | syscall.c:709-722 | the same for a reader: ERROR, block or read, each exactly when |
| `StaleFlag.WaiterFooled` | syscall.c:952-968 | a run on which the only waiter of a lock, woken by the reclaim, blocks on the reclaimed lock |
| `StaleFlag.FooledWaiterStays` | syscall.c:952-968 | on every continuation of it that process never runs |
| `StaleFlag.ReaderFooled` | syscall.c:709-722 | the same for the only reader of a pipe |
| `StaleFlag.FooledReaderStays` | syscall.c:709-722 | on every continuation of it that process never runs |
| `HalfReclaim.ReclaimStrands` | scheduler.c:323-341 | a run on which Reclaim leaves a waiter behind |
| `HalfReclaim.StrandedForEver` | scheduler.c:323-341 | on every continuation of it that process never runs |
| `AddressSpaces.ZeroMeansEmpty` | mem.c:7-24 | frame 0 is never free, so a grabbed 0 means exactly "none left" |
| `AddressSpaces.StepKeeps` | syscall.c:78-93 | every step keeps frames exclusively owned, kernel frames in place, and the active table installed |
| `AddressSpaces.FramesHaveOneOwner` | mem.c:7-24 | the same on every run |
| `AddressSpaces.BrkLosesIff` | syscall.c:20-34 | a Brk, failed ones included, loses a frame if and only if a page it gets to map is mapped already |
| `AddressSpaces.LoadKeeps` | loadprogram.c:198-268 | a load, also one that runs out of frames, keeps frames exclusive and loses none |
| `AddressSpaces.LoadNeedsFrames` | loadprogram.c:198-268 | a load succeeds if and only if there are frames for all its pages, those of the old program included |
| `AddressSpaces.ForkNeedsFrames` | syscall.c:78-93 | a Fork succeeds, and keeps frames exclusive, if and only if there are frames for all pages |
| `AddressSpaces.GrowNeedsFrames` | trap.c:98-111 | a stack growth keeps frames exclusive if and only if there are enough |
| `Frames.OwnedNotFree` | mem.c:7-24 | a mapped user, kernel-stack, initial-stack or kernel frame is not free |
| `Frames.OneOwner` | mem.c:7-24 | no frame has two owners |
| `Frames.MapUpUses` | syscall.c:20-34 | a growing break loses exactly the frames its range still held |
| `MemoryCalls.EventsIff` | trap.c:78-122 | when each event of the memory machine can happen |
| `MemoryCalls.BrkOutcome` | syscall.c:8-37 | the new end of the heap is the first page at or above the address, and exactly the pages up to it are mapped; with too few frames, exactly those for which there were frames |
| `MemoryCalls.BrkCovers` | syscall.c:20-34 | every byte below the new break can be read and written |
| `MemoryCalls.GrowsIff` | trap.c:91-96 | which faults grow the stack |
| `MemoryCalls.GrowOutcome` | trap.c:98-111 | exactly the pages from that of the fault address up to the stack are mapped |
| `MemoryCalls.KernelBrkOutcome` | kernel.c:93-140 | the kernel pages up to the new break are mapped; it never sinks and never meets the stack |
| `MemoryCalls.StoreOutcome` | scheduler.c:88-90 | a store through the installed table is read back and changes one frame |
| `MemoryCalls.KernelRunOutcome` | scheduler.c:22-31 | kernel code changes its own stack and registers only |
| `MemoryCalls.ExitOutcome` | syscall.c:305-328 | every frame of the process is free, in front of those that were, and it has no page left |
| `Programs.ExecOutcome` | syscall.c:106-156 | after Exec exactly the sections of the image are mapped, with their protections, bounds and context, on the initial kernel stack |
| `Programs.BootHolds` | kernel.c:333-415 | the same for init and idle at boot |
| `Programs.NewStackHolds` | scheduler.c:129-158 | a new kernel stack is a copy of the initial one, page by page |
| `Programs.ForkParks` | syscall.c:65-70 | a forked child waits with that stack and its parent's context, 0 in register 0 |
| `Programs.ChildStarts` | syscall.c:65-70 | on every run its first turn starts with exactly those and its own table |
| `Programs.FirstTurnOutcome` | scheduler.c:73-78 | the first turn of a process without a kernel stack |
| `Conservation.TidyStep` | syscall.c:305-328 | a step without a lowered or colliding Brk or a failed allocation loses no frame and keeps the pages between heap and stack unmapped |
| `Conservation.NoFrameIsEverLost` | loadprogram.c:198-268 | on every run of such steps each physical frame is accounted for exactly once |
| `Boot.BareAccountsIff` | kernel.c:163-192 | boot accounts for every frame once if and only if the kernel break is page-aligned |
| `Boot.CutPageIsLost` | kernel.c:194-242 | otherwise the page the break cuts is neither free nor mapped |
| `Boot.BootEstablishes` | kernel.c:370-415 | the state after boot satisfies the invariants and accounts for every frame |
| `Boot.BootLeaves` | kernel.c:23-83 | how many frames boot leaves, and the bounds of init |
| `Boot.GatheredDescends` | kernel.c:163-192 | frames are gathered from the top of memory down |
| `Boot.InitialSaved` | scheduler.c:98-123 | the saved initial stack is a copy of the running one |
| `LostFrames.BrkLosesFrame` | syscall.c:20-34 | from any state with room, raising, lowering and raising the break loses a frame |
| `LostFrames.BrkLosesAfterBoot` | syscall.c:20-34 | so on every machine with two frames left after boot |
| `LostFrames.FaultMapsFrameZero` | trap.c:98-111 | a run after which a stack fault maps frame 0 |
| `LostFrames.ForkMapsFrameZero` | syscall.c:78-93 | a run after which a Fork stops half way with a page on frame 0 |
| `LostFrames.FrameZeroAfterBoot` | trap.c:98-111 | both on a concrete machine, from boot |
| `LostFrames.UnalignedBreak` | kernel.c:194-242 | a concrete break whose page is lost |
| `Isolation.FrameKept` | syscall.c:78-93 | no step changes the contents of a frame of a process that is not running |
| `Isolation.OthersUntouched` | scheduler.c:58-96 | no step but its first turn changes the tables, bounds, contexts or pages of a process that is not running |
| `Isolation.RunsAreIsolated` | syscall.c:78-97 | the same on every run: no store by one process reaches another |
| `Isolation.ForkCopies` | syscall.c:65-97 | the child has the same valid pages, protections and contents in frames of its own, and the parent is unchanged |
| `Isolation.SwitchParks` | scheduler.c:16-31 | a process switched out has its kernel stack, registers and user context saved in its own frames |
| `Isolation.SwitchUnparks` | scheduler.c:33-53 | a switch to it restores exactly those and installs its own page table |
| `Isolation.ParkedKept` | scheduler.c:58-96 | every step in between keeps them |
| `Isolation.SwitchRoundTrip` | scheduler.c:58-96 | on every run a process switched out and back in finds the same stack, registers, user context and its own table |
| `ArgStack.AcceptedFits` | loadprogram.c:108-143 | an accepted load has the block inside the stack pages, aligned, and the heap below the stack |
| `ArgStack.AcceptedIff` | loadprogram.c:131-143 | a load is accepted if and only if a page is left between the stack pages and the data |
| `ArgStack.BlockExact` | loadprogram.c:108-116 | the block is at the highest double word with room for everything |
| `ArgStack.StringsTile` | loadprogram.c:356-364 | the strings stand one behind the other up to the limit |
| `ArgStack.ArgumentsReadBack` | loadprogram.c:356-364 | reading argc and argv back yields the original strings and the two NULLs |
| `ArgStack.PlanStack` | loadprogram.c:92-143 | sizes, addresses and the verdict of the size check |
| `ArgStack.SaveArgs` | loadprogram.c:166-177 | the buffer holds every string with its terminator, in order |
| `ArgStack.FlatHolds` | loadprogram.c:173-177 | the i-th string is found in the buffer at the sum of the sizes before it |
| `ArgStack.CopyString` | loadprogram.c:360 | copies one string and its terminator, finds its length, and writes nothing else |
| `ArgStack.PutArgument` | loadprogram.c:358-363 | adds one pointer and string without touching the earlier ones |
| `ArgStack.BuildArgs` | loadprogram.c:349-366 | the finished block, and nothing below the stack pointer is written |
| `ArgStack.LoadArguments` | loadprogram.c:92-366 | a refused load writes nothing; an accepted one writes only inside the stack pages, and its arguments read back |
| `LinkedList.Acyclic` | list.c:14-86 | a well-formed list has no cycle and no shared node |
| `LinkedList.ListInsert` | list.c:14-42 | inserts at a 1-based location; ERROR and no change out of range or without a list |
| `LinkedList.ListRemove` | list.c:44-68 | removes at a location and hands out that node; null and no change out of range |
| `LinkedList.ListIndex` | list.c:70-86 | the node at a location, null exactly out of range |
| `LinkedList.ListDelete` | list.c:88-105 | frees every node, the head included, once |
| `LinkedList.PerformAll` | list.c:14-68 | any sequence of insertions and removals keeps length, links and null termination and acts as on a sequence |
| `LinkedList.InsertRemoveUndo` | list.c:14-68 | insertion and removal at the same location undo each other, both ways |
| `LinkedList.InsertsAppend` | list.c:14-42 | insertions at len+1 append in order |
| `LinkedList.RemovesDropFirst` | list.c:44-68 | removals at 1 take the oldest first |
| `KernelCode.Kernel.constructor` | kernel.c:23-83 | the kernel starts in the boot state of the machine |
| `KernelCode.Kernel.NormalSchedule` | syscall.c:1334-1367 | takes the head of the ready queue, rotating idle |
| `KernelCode.Kernel.DoScheduler` | scheduler.c:474-522 | preempts the active process |
| `KernelCode.Kernel.UpdateSleepList` | scheduler.c:427-468 | the decrement-and-remove loop: all lose a tick, the expired join the ready queue in order, the others stay in order |
| `KernelCode.Kernel.Tick` | trap.c:59-65 | the clock step |
| `KernelCode.Kernel.Fork` | syscall.c:40-103 | the fork step |
| `KernelCode.Kernel.LeaveFamily` | syscall.c:274-300 | children orphaned, own entry removed from the parent's list, exit recorded if there is a parent |
| `KernelCode.Kernel.WakeParent` | syscall.c:331-344 | a parent found in `wait_list` moves to the ready queue |
| `KernelCode.Kernel.Exit` | syscall.c:257-362 | the exit step |
| `KernelCode.Kernel.ScanDeadList` | syscall.c:203-221 | one scan from a given location: what it reports and what it removes |
| `KernelCode.Kernel.Wait` | syscall.c:159-228 | the wait step |
| `KernelCode.Kernel.Delay` | syscall.c:370-405 | the delay step, its error and zero cases included |
| `KernelCode.Kernel.TtyLoop` | syscall.c:525-580 | one round of the chunk loop |
| `KernelCode.Kernel.Transmit` | syscall.c:550-560 | the terminal marked busy and one chunk handed to it |
| `KernelCode.Kernel.TtyWrite` | syscall.c:480-580 | the write step |
| `KernelCode.Kernel.Transmitted` | trap.c:182-210 | the completion trap, with its search of `io_list` |
| `KernelCode.Kernel.PipeInit` | syscall.c:584-647 | the pipe creation step |
| `KernelCode.Kernel.TryRead` | syscall.c:700-757 | block, or deliver and wake one reader |
| `KernelCode.Kernel.PipeRead` | syscall.c:650-761 | the read step with its lookup and error cases |
| `KernelCode.Kernel.PipeWrite` | syscall.c:764-858 | the write step |
| `KernelCode.Kernel.LockInit` | syscall.c:861-918 | the lock creation step |
| `KernelCode.Kernel.TryAcquire` | syscall.c:946-977 | block, or take the lock |
| `KernelCode.Kernel.Acquire` | syscall.c:921-981 | the acquire step |
| `KernelCode.Kernel.FreeLock` | syscall.c:1000-1020 | frees the lock and wakes its first waiter |
| `KernelCode.Kernel.Release` | syscall.c:984-1028 | the release step |
| `KernelCode.Kernel.CvarInit` | syscall.c:1031-1077 | the condition variable creation step |
| `KernelCode.Kernel.CvarSignal` | syscall.c:1080-1138 | the signal step |
| `KernelCode.Kernel.WakeAll` | syscall.c:1168-1189 | the broadcast loop empties the list in order |
| `KernelCode.Kernel.CvarBroadcast` | syscall.c:1141-1199 | the broadcast step |
| `KernelCode.Kernel.CvarWait` | syscall.c:1202-1233 | the wait step up to the block |
| `KernelCode.Kernel.WakeSome` | scheduler.c:328-341 | the loop with the shrinking bound moves half of the waiters, rounded up |
| `KernelCode.Kernel.DestroyPipeInfo` | scheduler.c:244-302 | takes a pipe out of the list and wakes half of its waiters |
| `KernelCode.Kernel.DestroyLockInfo` | scheduler.c:307-363 | the same for a lock that is free or the caller's |
| `KernelCode.Kernel.DestroyCvarInfo` | scheduler.c:368-423 | the same for a condition variable |
| `KernelCode.Kernel.Reclaim` | syscall.c:1270-1331 | the reclaim step |
| `KernelCode.Kernel.SemInit` | syscall.c:1370-1389 | the semaphore creation step |
| `KernelCode.Kernel.CountSignal` | syscall.c:1412-1420 | the count, and whether a waiter is to be let through |
| `KernelCode.Kernel.SemSignal` | syscall.c:1392-1430 | the signal step |
| `KernelCode.Kernel.SemWait` | syscall.c:1433-1474 | the wait step |
| `KernelCode.Kernel.Resume` | syscall.c:952-977 | how every blocked call goes on after its wake-up |
| `KernelDriver.Perform` | trap.c:21-57 | on every event the code makes the step of the machine |
| `KernelDriver.RunsKeepAll` | trap.c:21-57 | all object invariants together, on every run |
| `KernelDriver.PerformAll` | trap.c:21-57 | any sequence of events on a kernel object is a run, and all invariants hold of the object |
| `MemoryCode.MemoryManager.constructor` | kernel.c:23-83 | `KernelStart` leaves the boot state |
| `MemoryCode.MemoryManager.Start` | kernel.c:23-83 | the same, from zeroed memory |
| `MemoryCode.MemoryManager.InitInit` | kernel.c:370-415 | init's record, kernel stack and program |
| `MemoryCode.MemoryManager.InitIdle` | kernel.c:333-368 | idle's record and program, without a kernel stack |
| `MemoryCode.MemoryManager.SaveInitialKernel` | scheduler.c:98-123 | the initial kernel stack copied to frames of its own |
| `MemoryCode.MemoryManager.GrabFrame` | mem.c:7-24 | the head of the free list, or 0 |
| `MemoryCode.MemoryManager.GatherFreeFrames` | kernel.c:163-192 | the free list after boot |
| `MemoryCode.MemoryManager.EnableVmem` | kernel.c:194-242 | the kernel page table after boot, protections included |
| `MemoryCode.MemoryManager.SetKernelBrk` | kernel.c:93-140 | the kernel break step on a byte address, and its failures |
| `MemoryCode.MemoryManager.SysBrk` | syscall.c:8-37 | the Brk step, a failure half way included |
| `MemoryCode.MemoryManager.GrowStack` | trap.c:78-122 | when a fault grows the stack, and what it maps |
| `MemoryCode.MemoryManager.FreeRegion1` | loadprogram.c:198-211 | every valid page goes back to the free list |
| `MemoryCode.MemoryManager.MapSections` | loadprogram.c:218-265 | the three mapping loops, up to the first failure |
| `MemoryCode.MemoryManager.LoadProgram` | loadprogram.c:198-268 | region 1 freed and mapped afresh, or in part when frames run out |
| `MemoryCode.MemoryManager.InitProcKernel` | scheduler.c:129-158 | a kernel stack holding a copy of the initial one |
| `MemoryCode.MemoryManager.SwitchKernelContext` | scheduler.c:4-56 | the old stack saved, the new one restored |
| `MemoryCode.MemoryManager.ContextSwitch` | scheduler.c:58-96 | the switch step |
| `MemoryCode.MemoryManager.CopyUserPages` | syscall.c:77-93 | every valid page copied to a new frame, up to the first failure |
| `MemoryCode.MemoryManager.SysFork` | syscall.c:65-97 | the fork step, and the ERROR of a fork that runs out of frames |
| `MemoryCode.MemoryManager.SysExec` | syscall.c:106-156 | the exec step, its failure included |
| `MemoryCode.MemoryManager.SysExit` | syscall.c:305-328 | every user and kernel-stack frame goes back to the free list |
| `MemoryCode.MemoryManager.ExitTo` | syscall.c:346-358 | exit and the switch that saves nothing are the exit step |
| `MemoryCode.MemoryManager.Perform` | trap.c:21-57 | on every event the code makes the step of the memory machine |
| `MemoryCode.MemoryManager.PerformAll` | trap.c:21-57 | any sequence of events on the object is a run, and the memory invariant holds of the object |

## Left out

- ELF and file reading in `load_program`: section page counts and addresses are an input record.
- `sys_TtyRead` and `trap_tty_receive_hdl`: the handler's search does not advance (trap.c:165-177) and one length is shared by all terminals.
- Contents and liveness of a multi-chunk TtyWrite: every chunk is sent from the same address (syscall.c:555-557).
- TtyWrite to terminal 4, which the code lets through (syscall.c:502), and a semaphore id that does not exist (syscall.c:1404-1405, 1453-1454), are not enabled: the code reads outside its data there.
- Brk of an address outside region 1: `sys_Brk` does not check it; a lower address makes `next_heap_pn` negative and a higher one writes outside the page table (syscall.c:20-34).
- Fork with a full process table. Fork and a first turn without two frames for the kernel stack: `init_proc_kernel` then returns nothing (scheduler.c:146-149).
- On runs of the memory machine Fork and stack growth have the frames they need; `ForkNeedsFrames` and `GrowNeedsFrames` say what happens otherwise.
- The stack pointer of a load that fails: it is already the new one (loadprogram.c:161), which the model does not show.
- The kernel machine and the memory machine are separate: a kernel step and the frames it uses are not one transition.
- Pointer checks on user arguments, values written through user pointers (status, ids, buffers of a read), Getpid, the trap table, the queue set-up, and the illegal, math and disk traps: single branches.
- Use after free and frees of advanced pointers (scheduler.c:452-462, syscall.c:729-734): there is no free in the model except in `ListDelete`.
- 32-bit wrap-around of argument sizes, tick counts and the semaphore counter.
- KernelCode.Kernel.Wait: the status written through the user's pointer is part of the history entry only.
- MemoryCode.MemoryManager.SysBrk: requires an address that is not above region 1, because the code would write outside the page table.
- MemoryCode.MemoryManager.InitProcKernel: requires two free frames, because the code's failure has no defined result.
- Conservation.NoFrameIsEverLost: stated for runs without a lowered or colliding Brk and without an allocation that fails half way; `BrkLosesIff` says which Brk calls lose frames.
