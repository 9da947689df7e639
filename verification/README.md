# A verified model of the tick-driven kernel

The kernel keeps a handful of tasks, a ready queue, synchronous IPC endpoints and an event log in
fixed-size arrays, and moves by `tick()`. It checks most of its invariants only by logging lines at
run time. This project models that kernel and the memory layer below it and proves what the lines
check, and more, for every run.

How it is laid out:

- `KernelTypes`, `PageOps`, `KernelSpec`: the kernel state as a value, address spaces included, and
  every operation as a function of it, branch by branch, with all its repair, capacity and panic branches.
- `Buffers`, `EndpointCells`, `EventLog`, `KernelMachine`: the kernel as it runs. Task table, ready
  queue, endpoint queues and the log are arrays with lengths, changed in place by loops. Each method is
  proved to take the state to exactly the one that `KernelSpec` names. `MachineRuns` runs such a kernel
  step by step and draws the theorems about runs for it.
- `Counting`, `EventLists`, `Slots`, `Invariant`, `Links`, `Scheduling`, `IpcPaths`, `ReplyPath`,
  `KillPath`, `KillOutcome`: the invariant, and what each operation does once the invariant rules out its
  repair branches.
- `Holdings`, `Actions`, `Steps`: every tick and every kill is a sequence of actions of a few kinds. A
  property that these keep is kept by every run.
- `WaitGraph`, `Sessions`, `SessionProof`, `Ledger`, `Mailboxes`, `Strays`, `StrayRuns`, `Conservation`,
  `Roots`, `Switches`, `RootRuns`, `Spaces`, `Frames`, `FrameRuns`, `Priorities`, `Accounts`, `Runs`, `Checks`,
  `KillTheorem`, `Deaths`, `Halting`, `Rejections`: the theorems about all ticks and runs.
- `Rehearsal`, `StrandedRun`, `MisdirectedRun`: the runs that show where two of them end.
- `Words`, `DemoTicks`, `DemoCalls`, `DemoRun`, `DemoScenes`, `CallLog`, `DemoTheorems`, `PageCalls`: the
  built-in client and server, and their memory demo.
- `FrameAllocator`, `VirtLayout`, `PageRoots`, `AddressSpaces`, `UserSpaces`, `Agreement`, `FaultGuard`:
  memory.

A run is any sequence of steps from a boot state: ticks in which the running task makes any system
call, page calls need any number of tables, page accesses fault or not and frames run out at any point,
and kills of any user tasks in between. A panic ends the run.
Unless a row says otherwise, a result holds for any number of tasks and endpoints, any priorities and
any quantum.

## What came out

- The reply queue and the reply waits agree in both directions for up to three user tasks, in every
  run (`Runs.NobodyStrandedForever`). With four user tasks they need not: a reply drops every waiter
  behind the one it answers, and a run of 14 ticks without kills or failures gets there
  (`StrandedRun.FourUsersStrand`). For any number of tasks a single reply strands nobody if and only if
  the last waiter in the line awaits the caller or is alone (`ReplyPath.ReplyStrandsIff`), a run has no
  stranded task at any point if and only if every reply made in it was of that kind
  (`StrayRuns.RunStrandsIff`), and who is stranded once waits until its death (`StrayRuns.StrayForever`).
- A reply wakes a waiter without a reply having been delivered if and only if the line is not empty and
  nobody in it awaits the caller (`ReplyPath.MisdirectsIff`); the waiter is then told DEAD_PARTNER although
  its partner lives. With three user tasks a run of ten ticks gets there
  (`MisdirectedRun.ThreeUsersMisdirect`); with two it is unreachable (`Conservation.NoMismatch`). The
  balance of deliveries and replies that the counters show is therefore stated for two user tasks; counted
  in the log, task by task and with the broken-off waits, it holds for any number (`Ledger.LedgerForever`).
- The client's periodic call is due every 8 ticks, but on those ticks its memory demo usually has a
  page call pending, so it calls only every 24 ticks (`DemoTheorems.DemoCallsWhen`).
- Record and page table of a user space agree after a map call if and only if the call changes neither or
  maps a USER page of the slot with tables at hand (`Agreement.MapKeepsAgreementIff`). A map that the record
  accepts and the page table refuses leaves a page that a later kill cannot unmap
  (`Agreement.RefusedMapBreaksCleanup`), and a kill panics exactly then or without a root
  (`KillTheorem.KillPanicsIff`). A page without the USER flag is mapped low and unmapped high, so its leaf
  outlives every later call (`Agreement.KernelPageDiverges`).
- The repository's README says that the evil map demos must panic; the code returns error codes. The
  model follows the code.

## Model

| member | source | states |
|---|---|---|
| Runs.CoreForever | kernel/src/kernel/mod.rs:2218-2338 | in every run, at every tick boundary: exactly the current task runs; the ready queue holds exactly the ready user tasks, once each; every receiver and sender sits in exactly its slot and every queue entry in the slot its reason names; closed endpoints are empty; no endpoint has both a receiver and senders; only the running task has a non-zero slice, below the quantum |
| Checks.NoViolationForever | kernel/src/kernel/mod.rs:502-965 | with up to three user tasks no INVARIANT VIOLATION line of debug_check_invariants is reachable in any run: kinds and roots of the spaces, the current task, USER offsets within the slot, endpoints and their entries, dead tasks out of the queues and without USER mappings, and from every blocked task back to its queue |
| Runs.NobodyStrandedForever | kernel/src/kernel/ipc.rs:312-370 | with up to three user tasks every task that awaits a reply is in the reply queue of its endpoint, in every run |
| ReplyPath.ReplyStrandsIff | kernel/src/kernel/ipc.rs:343-369 | for any number of tasks: ipc_reply leaves nobody waiting in no queue if and only if the line's last waiter awaits the caller or the line has at most one waiter |
| ReplyPath.ReplyStrays | kernel/src/kernel/ipc.rs:312-370 | the tasks a reply strands are exactly those behind the answered waiter, or all but the last when nobody awaits the caller |
| Strays.ThreeUsersSafe | kernel/src/kernel/ipc.rs:343-369 | with up to three user tasks a reply is always safe in that sense |
| StrayRuns.TickStrandsIff | kernel/src/kernel/mod.rs:2218-2338 | for any number of tasks: from a state without strays a tick leaves none if and only if the reply made in it, if any, was safe |
| StrayRuns.RunStrandsIff | kernel/src/kernel/ipc.rs:343-369 | for any number of tasks: no state of a run has a stray if and only if every reply made in the run was safe |
| StrayRuns.StrayForever | kernel/src/kernel/ipc.rs:349-367 | a stranded task is still stranded, or dead, after any further run: no reply, close or kill of another task frees it |
| StrandedRun.FourUsersStrand | kernel/src/kernel/ipc.rs:349-367 | a run of 14 ticks from boot with four user tasks, without kills, faults or shortages, after which a task awaits a reply and is in no reply queue |
| ReplyPath.MisdirectsIff | kernel/src/kernel/ipc.rs:349-369 | for any number of tasks: a reply wakes a waiter without a delivered reply if and only if the line is not empty and nobody in it awaits the caller; the last waiter then gets DEAD_PARTNER although its partner lives |
| MisdirectedRun.ThreeUsersMisdirect | kernel/src/kernel/ipc.rs:349-369 | a run of ten ticks from boot with three user tasks: task 1 sends on endpoint 0, task 2 receives, task 3 replies there; task 1, which awaits task 2, is woken with DEAD_PARTNER, and nobody is dead |
| Runs.NoCycleForever | kernel/src/kernel/ipc.rs:529-574 | in every run the graph of who awaits whose reply has no cycle |
| Runs.SessionsForever | kernel/src/kernel/ipc.rs:376-742 | in every run each task's history is a sequence of sessions (call, delivery, reply; or an early release) without any event out of order, and its state is the one its session says |
| Sessions.DeliveryHasCall | kernel/src/kernel/ipc.rs:417-459 | in such a history each IpcDelivered carries endpoint and message of an earlier IpcSendCalled by the same sender, with nothing of that session in between |
| Sessions.ReplyHasDelivery | kernel/src/kernel/ipc.rs:679-742 | each IpcReplyCalled answers an earlier IpcDelivered between the same two tasks on the same endpoint, with nothing of that session in between |
| Sessions.DeliveredReplyHasCall | kernel/src/kernel/ipc.rs:702-742 | each IpcReplyDelivered follows its IpcReplyCalled and answers exactly one IpcDelivered |
| Sessions.CallStartsAtRest | kernel/src/kernel/ipc.rs:644-673 | before each call the caller's latest session event, if any, is a reply delivered to it or its own wake-up, and it comes after all its earlier calls |
| Runs.MailForever | kernel/src/kernel/ipc.rs:448-459 | in every run the message a task holds is the last one delivered to it |
| Runs.BalancedForever | kernel/src/kernel/ipc.rs:456-610 | in every kill-free run: slow sends minus fast receives is the total length of the send queues, and slow receives minus fast sends the number of waiting receivers |
| Runs.AnswerableForever | kernel/src/kernel/ipc.rs:580-739 | in every kill-free run with up to two user tasks, deliveries minus delivered replies is the number of reply waiters |
| Ledger.LedgerForever | kernel/src/kernel/ipc.rs:376-742 | in every run, for any number of tasks and whoever is killed: a task's calls are its deliveries, its withdrawn calls and the one still queued; its deliveries are the replies it got, the waits broken off and the one still open; only its death loses one |
| Ledger.TallyBalances | kernel/src/kernel/ipc.rs:376-742 | the same two equations for every unbroken history, by the session of the task |
| Conservation.NoMismatch | kernel/src/kernel/ipc.rs:349-359 | with up to two user tasks a reply never meets a waiter of somebody else |
| IpcPaths.RecvOpenIdeal | kernel/src/kernel/ipc.rs:376-484 | under the invariant a receive takes the last queued sender's message or waits: no entry is dropped, nobody rescued, no queue full |
| IpcPaths.SendOpenIdeal | kernel/src/kernel/ipc.rs:521-642 | under the invariant a send hands its message to the waiting receiver or queues: no capacity branch is taken |
| Scheduling.CompactionIdle | kernel/src/kernel/mod.rs:1651-1665 | under the invariant compacting the ready queue changes nothing |
| Scheduling.SchedulePicksBest | kernel/src/kernel/mod.rs:1508-1649 | a schedule picks a task of the highest priority among the ready user tasks, and the idle task only when there is none |
| Priorities.InversionBounded | kernel/src/kernel/mod.rs:1816-1850 | in any run with at least `quantum` ticks there is a point where a given user task is not ready behind a running task of lower priority, or the kernel has halted |
| KillTheorem.KillExact | kernel/src/kernel/mod.rs:1326-1408 | a kill restores the invariant and, unless the mapping cleanup panics, every task meets its fate: the killed one is dead and wiped, waiters at its endpoints get ENDPOINT_CLOSED, other waiters for its reply DEAD_PARTNER, nobody else changes |
| KillTheorem.KillPanicsIff | kernel/src/kernel/mod.rs:1156-1250 | a kill panics if and only if the killed task's space has no root or records a USER page that is not really mapped |
| KillTheorem.KillWakes | kernel/src/kernel/ipc.rs:260-308 | the blocked tasks that a kill wakes are exactly those two groups, close winning over partner |
| KillTheorem.KillComplete | kernel/src/kernel/mod.rs:1080-1154 | after a kill only id, priority, kind and run time of the dead task are left, and its space without its USER pages; it is in no queue and no endpoint, and nobody in a reply queue waits for it |
| KillTheorem.NobodyAwaitsTheDead | kernel/src/kernel/mod.rs:1108-1154 | if nobody was stranded before, nobody at all waits for the dead task |
| KillTheorem.KillFinal | kernel/src/kernel/mod.rs:1326-1408 | through any further run the killed task stays dead and out of every queue |
| KillOutcome.OrphansOk | kernel/src/kernel/mod.rs:1108-1154 | the bounded wake list never drops anybody: it ends up with exactly the waiters for the dead partner |
| KillOutcome.EndpointFateMet | kernel/src/kernel/ipc.rs:260-308 | a kill closes and empties the endpoints of the dead task and takes from the others exactly the dead and those who awaited it |
| Deaths.TickDeaths | kernel/src/kernel/mod.rs:1910-1964 | who dies in a tick: the running task of a user page fault exactly when its access to user memory faults, or of the hook exactly when that strikes its receive, and nobody else; the one kill is counted and logged under its reason; a failing cleanup is a panic; in every other tick nobody dies and no kill is counted or logged |
| Deaths.KillRecorded | kernel/src/kernel/mod.rs:1326-1408 | a kill of a living user task whose cleanup gets through kills it and nobody else, adds one to the counter of its reason only, and logs exactly one TaskKilled, with its id and reason |
| Deaths.KillsForever | kernel/src/kernel/mod.rs:1326-1350 | in every run whose kills name existing user tasks the two counters of kills are the numbers of logged kills by reason |
| Rejections.GateOpensIff | kernel/src/kernel/ipc.rs:180-225 | an IPC call passes the entry checks exactly when a user task makes it on an existing open endpoint |
| Rejections.ClosedRefuses | kernel/src/kernel/ipc.rs:204-225 | send, receive and reply on a closed endpoint leave 0xC105ED00C105ED00 with the caller and change nothing else |
| Rejections.SecondReceiverRefused | kernel/src/kernel/ipc.rs:463-484 | a receive where another receiver waits is logged, leaves 0xBADC0FFEBADC0FFE with the caller and changes nothing else |
| Rejections.KernelDropped | kernel/src/kernel/syscall.rs:74-92 | an IPC call of the kernel task is logged as issued and dropped |
| Rejections.ClosedForever | kernel/src/kernel/ipc.rs:260-308 | the endpoints of a killed task are closed and empty after any further run, and every call of a user task on one is refused with ENDPOINT_CLOSED |
| RootRuns.RootForever | kernel/src/kernel/mod.rs:1617-1641 | in every run the running task is on its own root if and only if real switches are allowed and it has not touched user memory since it was switched to; otherwise, and under the idle task, the kernel's root is loaded |
| Switches.ScheduleLoads | kernel/src/kernel/mod.rs:1617-1641 | a schedule loads the root of the user task it picks where real switches are allowed, keeps the root where they are not, and loads the kernel's for the idle task |
| RootRuns.SwitchesForever | kernel/src/kernel/mod.rs:1643-1649 | in every run the running task is the one that the log last switched to, and the counter of switches is the number of logged switches to another user task |
| Halting.HaltForever | kernel/src/kernel/mod.rs:1302-1324 | in every run with at least one user task at boot: the kernel runs on only while a user task lives; when none does it has stopped with the kernel's root loaded; and it stops only then, in a panic, or when the frames are used up |
| Accounts.ClockForever | kernel/src/kernel/mod.rs:2218-2252 | in every run the four activities take turns tick by tick, the timer shows a quarter of the ticks, and while the kernel has not stopped every tick step was a tick |
| Accounts.TickLogsTime | kernel/src/kernel/mod.rs:2218-2252 | every tick begins its part of the log with its own number, and with the new time when it updates the timer |
| Accounts.TickRuntime | kernel/src/kernel/mod.rs:1667-1684 | every tick adds one to the run time of the task that ran, unless it died or the kernel panicked, and nothing to any other |
| Accounts.RuntimeForever | kernel/src/kernel/mod.rs:1667-1684 | in every run without kills the run times of all tasks add up to the ticks, but for one that ended in a panic |
| Runs.SpacesForever | kernel/src/kernel/mod.rs:601-626 | in every run, through all page calls and kills: USER pages lie in the slot, every page really mapped there is recorded with the same frame and flags, and a dead task's space has no USER page |
| Runs.FramesIsolated | kernel/src/kernel/mod.rs:1869-1888 | in every run, over disjoint memory regions: a frame that one space maps is at a physical address that no other space maps and that is no user root |
| FrameRuns.TableFrames | kernel/src/arch/paging.rs:1034-1047 | the frames that a successful map call takes for tables are never mapped or kept by a task, neither after the tick nor after any further run |
| FrameRuns.ScratchFrames | kernel/src/kernel/mod.rs:2253-2262 | the frame that a tick allocates is never a task's; when none is left the kernel stops |
| FrameRuns.SpentForever | kernel/src/mm/mod.rs:131-146 | a frame once taken that no task holds is never held again in any run |
| DemoTheorems.DemoOnTime | kernel/src/kernel/user_program.rs:35-137 | in every kill-free run of the built-in program the kernel follows an exact timetable, tick by tick; it misses a tick only when it has stopped with all frames taken, or in a panic of the kernel task's own memory demo at tick 4 |
| DemoTheorems.DemoServes | kernel/src/kernel/user_program.rs:84-137 | from tick 5 on the idle task never runs; once the client has called, whenever it runs the server is ep0's receiver; the two never block together; the server never uses more than four ticks of its quantum of five; the client's last logged call has tag 0x1111 (before tick 16) or 0x2222 and the low 16 bits of its tick; the server holds nothing but that message; the client sees an answer exactly at ticks 9 and 10 and at two ticks in 24 from tick 17 on, with tag 0xABCD and the low 16 bits of that message |
| DemoTheorems.DemoCallsWhen | kernel/src/kernel/user_program.rs:104-122 | the client waits for the server exactly at ticks 6 to 8 and at one tick in 24 from tick 16 on |
| DemoTheorems.MessageBits | kernel/src/kernel/user_program.rs:98-118 | the message of the client's last call, bit by bit: its tag, and the low 16 bits of tick 6 or of the latest tick 16 + 24k |
| CallLog.TickLogsCall | kernel/src/kernel/ipc.rs:644-673 | a peaceful tick in which the running task sends on an open endpoint makes its message the caller's last logged call |
| CallLog.TickKeepsCalls | kernel/src/kernel/mod.rs:2218-2338 | a peaceful tick without a send keeps every task's last logged call |
| EventLog.LatestPush | kernel/src/kernel/mod.rs:450-463 | one more event drops the oldest of the latest ones exactly when the log is full |
| EventLog.RingHolds | kernel/src/kernel/mod.rs:450-463 | after any history the ring's slots from its head on are exactly the latest events in order, across any number of wrap-arounds |
| EventLog.Ring.Push | kernel/src/kernel/mod.rs:450-463 | one in-place push: the ring is again the one after the whole history |
| EventLog.Ring.Dump | kernel/src/kernel/mod.rs:2344-2353 | reading from the head gives exactly the last min(n, capacity) events in order |
| Buffers.Contains | kernel/src/kernel/mod.rs:1791-1798 | the scan finds an entry iff it is in the queue |
| Buffers.RemoveInOrder | kernel/src/kernel/mod.rs:1043-1062 | in-place compaction is order-keeping removal |
| Buffers.KeepReadyOnly | kernel/src/kernel/mod.rs:1651-1665 | in-place compaction keeps exactly the entries that name a ready task |
| Buffers.PurgeBySwap | kernel/src/kernel/mod.rs:1086-1094 | the in-place purge is repeated swap-removal |
| Buffers.FindBest | kernel/src/kernel/mod.rs:1453-1476 | the scan finds the first entry of the highest priority, and gives up when the first entry is out of range |
| EndpointCells.EndpointCell.TryEnqueueSender | kernel/src/kernel/ipc.rs:102-112 | the new line, and whether there was room |
| EndpointCells.EndpointCell.DequeueSender | kernel/src/kernel/ipc.rs:114-123 | the last sender leaves the line; None exactly when it is empty |
| EndpointCells.EndpointCell.TryEnqueueReplyWaiter | kernel/src/kernel/ipc.rs:126-136 | the new line, and whether there was room |
| EndpointCells.EndpointCell.RemoveReplyWaiterAt | kernel/src/kernel/ipc.rs:138-148 | the hole is filled with the last entry; None exactly when out of range |
| EndpointCells.EndpointCell.Purge | kernel/src/kernel/mod.rs:1080-1106 | the task leaves receiver slot and both lines of the endpoint |
| KernelMachine.Kernel.constructor | kernel/src/kernel/mod.rs:293-442 | the boot state, with a valid log |
| KernelMachine.Kernel.Wake | kernel/src/kernel/mod.rs:1761-1789 | the whole new state, on the arrays |
| KernelMachine.Kernel.Block | kernel/src/kernel/mod.rs:1714-1759 | the whole new state, on the arrays |
| KernelMachine.Kernel.EnqueueReady | kernel/src/kernel/mod.rs:1410-1425 | the whole new state, on the arrays |
| KernelMachine.Kernel.Dispatch | kernel/src/kernel/mod.rs:1427-1486 | the whole new state: compaction, choice of the best, swap-removal, start |
| KernelMachine.Kernel.Schedule | kernel/src/kernel/mod.rs:1508-1649 | the whole new state, on the arrays |
| KernelMachine.Kernel.Rescue | kernel/src/kernel/ipc.rs:245-257 | the whole new state, on the arrays |
| KernelMachine.Kernel.PopSender | kernel/src/kernel/ipc.rs:378-411 | the dequeue loop skips broken entries and finds the next sender |
| KernelMachine.Kernel.RecvFast | kernel/src/kernel/ipc.rs:376-461 | the whole new state, and whether a message was taken |
| KernelMachine.Kernel.RecvSlow | kernel/src/kernel/ipc.rs:463-484 | the whole new state, including the error of a second receiver |
| KernelMachine.Kernel.Recv | kernel/src/kernel/ipc.rs:486-515 | the whole new state, with every rejection |
| KernelMachine.Kernel.Handover | kernel/src/kernel/ipc.rs:521-584 | the whole new state of the fast send, with its capacity branch |
| KernelMachine.Kernel.SendWait | kernel/src/kernel/ipc.rs:600-628 | the whole new state of the slow send, with its capacity branch |
| KernelMachine.Kernel.Send | kernel/src/kernel/ipc.rs:644-673 | the whole new state, with every rejection |
| KernelMachine.Kernel.TakeScan | kernel/src/kernel/ipc.rs:312-363 | the scan from the end: the line left, the waiter found, the first one dropped |
| KernelMachine.Kernel.Reply | kernel/src/kernel/ipc.rs:679-742 | the whole new state, with every rejection and the rescue |
| KernelMachine.Kernel.CloseEndpoint | kernel/src/kernel/ipc.rs:260-308 | the whole new state after the three drains |
| KernelMachine.Kernel.ResolveOrphans | kernel/src/kernel/mod.rs:1108-1154 | the whole new state after the scan of all lines and the wake-ups |
| KernelMachine.Kernel.PurgeEndpoints | kernel/src/kernel/mod.rs:1080-1106 | the task leaves every endpoint |
| KernelMachine.Kernel.AliveUsers | kernel/src/kernel/mod.rs:1280-1299 | the number of user tasks that are not dead |
| KernelMachine.Kernel.MaybeHalt | kernel/src/kernel/mod.rs:1302-1324 | the kernel halts on its own root when no user task lives |
| KernelMachine.Kernel.Kill | kernel/src/kernel/mod.rs:1326-1408 | the whole new state on the arrays, with the mapping cleanup and its panic |
| KernelMachine.Kernel.UserStep | kernel/src/kernel/user_program.rs:35-154 | the whole new state after the program chose its call |
| KernelMachine.Kernel.HandleSyscall | kernel/src/kernel/syscall.rs:66-129 | the whole new state after the call, page calls and their panics included |
| KernelMachine.Kernel.MapFor | kernel/src/kernel/syscall.rs:131-185 | the whole new state: demo frame, record, page table, tables taken, outcome |
| KernelMachine.Kernel.UnmapFor | kernel/src/kernel/syscall.rs:187-232 | the whole new state: record, page table, outcome |
| KernelMachine.Kernel.HandlePending | kernel/src/kernel/syscall.rs:47-64 | the whole new state after the pending call, if any |
| KernelMachine.Kernel.MemDemo | kernel/src/kernel/mod.rs:1966-2216 | the whole new state: the stages of a user task with the kill after a fault, and the kernel task's map and unmap with their halt and panics |
| KernelMachine.Kernel.ChargeSlice | kernel/src/kernel/mod.rs:1816-1850 | the whole new state, with preemption and renewal |
| KernelMachine.Kernel.Tick | kernel/src/kernel/mod.rs:2218-2338 | the whole new state after a tick, memory and log included |
| MachineRuns.Perform | kernel/src/kernel/mod.rs:2218-2338 | a kernel object that takes any steps ends in the state of the run; from boot, with only user tasks killed, the invariant, the root rule, acyclic waits, the space and frame rules hold, and with up to three user tasks no stray and no violation |
| MachineRuns.Session | kernel/src/kernel/mod.rs:2344-2353 | boot, any steps, dump: the events read are exactly the latest ones of the run, in order |
| FrameAllocator.FramesOfExact | kernel/src/mm/mod.rs:94-128 | the frames of a region are exactly the aligned ones fully inside it, ascending |
| FrameAllocator.AlignUpBits | kernel/src/mm/mod.rs:94-97 | the 64-bit masking rounds up to the next multiple of 4096 |
| FrameAllocator.FramesDistinct | kernel/src/mm/mod.rs:131-146 | over disjoint regions no frame is listed twice |
| FrameAllocator.Allocator.Advance | kernel/src/mm/mod.rs:100-128 | skipping to the next usable region loses no frame |
| FrameAllocator.Allocator.Allocate | kernel/src/mm/mod.rs:131-146 | the k-th call returns the k-th frame of the list, and None exactly when the list is used up |
| VirtLayout.AliasIsShift | kernel/src/arch/virt_layout.rs:67-78 | for every address below 2^41 the alias is the address plus 2^64 - 2^41, without overflow |
| VirtLayout.AliasPlace | kernel/src/arch/virt_layout.rs:49-78 | the alias is canonical, has index 508 + index and keeps the low 39 bits |
| VirtLayout.AliasInjective | kernel/src/arch/virt_layout.rs:67-78 | different addresses have different aliases |
| VirtLayout.AliasDomain | kernel/src/arch/virt_layout.rs:71-74 | the indices 0 to 3 that the debug assertion demands are exactly the canonical addresses below 2^41 |
| VirtLayout.AliasWraps | kernel/src/arch/virt_layout.rs:67-78 | one slot further, where only the debug assertion stops it, the alias of 2^41 is 0 |
| PageRoots.InstallAlias | kernel/src/arch/paging.rs:884-909 | the entries after installation; it stops exactly when a source entry is open to user code |
| PageRoots.InitUserRoot | kernel/src/arch/paging.rs:1125-1226 | the user root's 512 entries; it stops exactly when the physmap is in the high half, collides or is missing or a shared entry is open to user code |
| PageRoots.AliasTranslates | kernel/src/arch/paging.rs:884-909 | the current root and every user root translate the alias of a low address as the original root translates the address |
| PageRoots.UserRootExact | kernel/src/arch/paging.rs:1150-1216 | a user root agrees with its source on physmap window and high half and maps nothing else |
| PageRoots.UserOpsStayInSlot | kernel/src/arch/paging.rs:403-420 | any sequence of maps and unmaps of USER pages in a user root gets through exactly when every mapped page lies in the slot, and changes no level-4 entry but slot 32 |
| PageRoots.UserOpsTranslate | kernel/src/arch/paging.rs:1008-1090 | so every address outside slot 32 translates as before |
| AddressSpaces.AddressSpace.Apply | kernel/src/mem/address_space.rs:60-93 | the new contents and the exact error: already mapped, not mapped, or 64 mappings in use |
| AddressSpaces.AddressSpace.Count | kernel/src/mem/address_space.rs:95-97 | the count is the number of mapped pages |
| AddressSpaces.AddressSpace.ClearUser | kernel/src/mem/address_space.rs:138-146 | exactly the USER mappings are gone |
| AddressSpaces.AddressSpace.UserPages | kernel/src/kernel/mod.rs:1181-1201 | the 64-page list is never truncated and holds exactly the USER pages, once each |
| UserSpaces.PagedSpace.MapPage | kernel/src/kernel/syscall.rs:131-185 | new record, new page table and return code |
| UserSpaces.PagedSpace.UnmapPage | kernel/src/kernel/syscall.rs:187-232 | new record, new page table and return code |
| UserSpaces.PagedSpace.Cleanup | kernel/src/kernel/mod.rs:1156-1250 | it panics exactly when there is no root or a recorded USER page is not really mapped; otherwise both sides lose exactly the USER pages |
| Agreement.MapKeepsAgreementIff | kernel/src/kernel/syscall.rs:131-185 | from an agreeing space, for any page and flags: record and slot agree after a map call if and only if no frame was got, the page was recorded, the record was full, or a USER page of the slot was mapped with tables at hand |
| Agreement.UserMapExact | kernel/src/kernel/syscall.rs:131-185 | for any space and a USER page of the slot: the map call answers 0 exactly when a frame was got, record and page table have room, the space has a root and tables could be had, and then the page is mapped to that frame on both sides; otherwise 10, 1, 3, 10 or 11 by cause, and the space that is left |
| Agreement.AgreeingMapExact | kernel/src/kernel/syscall.rs:131-185 | in an agreeing space: 0 exactly with a frame, a free page, room in the record, and tables; then record and slot have exactly this page more |
| Agreement.MapPanicsIff | kernel/src/arch/paging.rs:403-420 | exactly when a map call panics, for any space, page and flags: it has got to the page table with a USER page outside the slot, a kernel page inside it, or an address that is not canonical |
| Agreement.UnmapPanicsIff | kernel/src/arch/paging.rs:1053-1070 | exactly when an unmap call panics: the page is recorded and the address is not canonical |
| Agreement.MapUnmapRestores | kernel/src/kernel/syscall.rs:131-232 | unmapping a page that was just mapped answers 0 and restores the space |
| PageCalls.MapCallExact | kernel/src/kernel/syscall.rs:119-185 | the running user task's map call from an agreeing space: exactly when it succeeds, the task's frame and space then, exactly the frames taken, and in any case its code, unread |
| PageCalls.UnmapCallExact | kernel/src/kernel/syscall.rs:124-232 | its unmap call: 0 and the page gone on both sides, or 2; the code unread and nothing else changed |
| PageCalls.ResultConsumed | kernel/src/kernel/mod.rs:487-499 | the program's next step consumes an unread code |
| PageCalls.DemoMapTick | kernel/src/kernel/mod.rs:2014-2025 | a whole tick of a user task at stage 0: page 0x110 is mapped to the task's own frame, writable and USER, on both sides, and the task finds 0; or nothing is mapped and it finds the reason; stage 1 follows |
| PageCalls.QuietAccess | kernel/src/kernel/mod.rs:2027-2074 | an access without a fault ends on the kernel's root and goes from stage 1 to 2, or from 3 to 0, and nothing else changes |
| PageCalls.DemoUnmapTick | kernel/src/kernel/mod.rs:2076-2096 | a whole tick at stage 2: the page is gone on both sides and the task finds 0, or 2 if it was not there; stage 0 follows, or 3 with the page-fault demo |
| PageCalls.KernelMaps | kernel/src/kernel/mod.rs:2159-2216 | the kernel task's turn maps page 0x100 to its own frame, writable and not USER, and logs it |
| PageCalls.KernelTurns | kernel/src/kernel/mod.rs:2159-2216 | two turns of the kernel task restore its space |
| PageCalls.KernelDemoFails | kernel/src/kernel/mod.rs:2159-2216 | exactly when a turn of the kernel task stops the kernel for want of a frame, and exactly when it panics |
| Agreement.UserMapDiffersInOnePage | kernel/src/kernel/syscall.rs:131-185 | a map call for a USER page of the slot never panics, and where it breaks the agreement it fails with the architecture error and exactly that page differs |
| Agreement.UnmapKeepsAgreement | kernel/src/kernel/syscall.rs:187-232 | an unmap call in an agreeing space keeps the agreement and never fails below the record |
| Agreement.AgreementForever | kernel/src/arch/paging.rs:1008-1066 | record and slot agree after any page calls as long as table frames can be had |
| Agreement.FitForever | kernel/src/arch/paging.rs:1008-1066 | after any page calls with any failures USER pages lie in the slot, and every page really mapped there is recorded with the same frame and flags |
| Agreement.AgreementCleans | kernel/src/kernel/mod.rs:1156-1250 | from an agreeing space the cleanup reaches no panic and leaves no USER page on either side |
| Agreement.RefusedMapBreaksCleanup | kernel/src/kernel/mod.rs:1229-1241 | after a refused map the cleanup's condition fails |
| Agreement.KernelPageDiverges | kernel/src/arch/paging.rs:1051-1090 | from any agreeing space: a page without USER can be mapped low, the agreement is lost, its unmap fails when it lies within the slot's size, and its leaf survives any later page calls |
| FaultGuard.GuardedAccessExact | kernel/src/arch/paging.rs:279-385 | whatever faults strike, a guarded access that comes to its end is on the kernel root with the guard off, and reports a fault exactly when one struck in the armed window, namely the first |
| FaultGuard.StopsOnlyUnarmed | kernel/src/arch/interrupts.rs:356-382 | the machine stops in a guarded access exactly when a fault strikes before the guard is on |
| FaultGuard.FixupWindow | kernel/src/arch/paging.rs:214-232 | at every point that a guarded access reaches, whatever struck before: a fault stops the machine if and only if the guard is not on yet; after that it is recorded, the access resumes at its end and the guard is off |

## Left out

- Sleep and the wait queue: nothing puts a task to sleep, and the wait queue stays empty; the checks on it are not written out.
- Checks.NoViolationForever: leaves out the lines that compare compile-time constants of `mem::layout` and `arch::paging`, and those about the wait queue; a state has one space for each task, so the check that a task's space index is in range has no counterpart.
- The mailbox and the ring-3 builds, which repoint the current task outside the scheduler.
- Logging, VGA, serial, panics of the drivers, GDT, IDT, entry code and the trace counters.
- The demo counters and flags that only feed logging (`demo_msgs_delivered`, `demo_replies_sent`, `demo_early_sent_by_task0`).
- `bootstrap()`: runs start right after `KernelState::new`, or with any larger number of frames taken; its five log entries are not modelled.
- User spaces without a root at boot: a machine too small for that can be booted in the model, but the theorems about runs start from one with a root for every user task.
- Counters and ticks are unbounded naturals; addresses and pages keep their 64-bit bounds.
- The kill hook after a receive is generalised: any receiving user task may be killed at any receive.
- Whether a guarded access faults, and how many tables a map has to create, are inputs of a tick and not computed from the page table.
- The kernel object keeps each task's space as a value in the task table; `UserSpaces.PagedSpace` and `AddressSpaces.AddressSpace` are the objects, proved against the same functions. A kill that panics leaves the state from before the kill, marked as panicked: what it was about to change is not modelled.
- The leaves of a space are those that the kernel put there, and for the kernel's space what the boot loader mapped; a page call that aims at the kernel half shared by a user root sees nothing mapped there.
- Page flags without PRESENT, and huge pages: tables below level 4 are a finite map of 4 KiB leaves.
- Rewriting CR3 to the same root (TLB flushes), the CR3 preflight check and the self tests of the alias.
- `alias_copycount_auto` and other feature-gated helpers that the default build does not use.
- Runs.AnswerableForever: stated for up to two user tasks, because with three a waiter can be rescued and no counter records it; `Ledger.LedgerForever` is the law for any number.
