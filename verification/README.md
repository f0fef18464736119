# K1K, modelled and proved in Dafny

K1K is a small capability kernel (Rust) with ring-3 services and a C library. This project models the parts of
it whose correctness does not show in any one function, and proves what they promise: the first-fit heap in
its own memory, the multi-CPU scheduler, blocking message endpoints and notification counters, the movement
of capabilities, the shootdown protocol between CPUs, and three service algorithms (a TCP client, a FAT
reader with the read path on top of it, and printing and reading of integers).

`dafny verify dfyconfig.toml` checks everything.

## How it is laid out

| files | what they hold |
|---|---|
| `Memory`, `Blocks`, `Moves`, `HeapSteps`, `Supply`, `Heap`, `HeapRuns` | The allocator on an array of bytes. `Blocks` is the specification: a list of blocks, and what the bytes of their headers must say. `Moves` says what each operation does to the list, `HeapSteps` that the words it writes amount to that, `Heap` is the allocator itself, `Supply` where it gets memory, and `HeapRuns` any sequence of calls as its client sees it. |
| `Scheduler`, `SchedulerSafety`, `SchedulerRaces`, `SchedulerSleepers`, `SchedulerTimes`, `SchedulerRuns`, `SchedulerProgress`, `SchedulerLives`, `SchedulerLoops` | The scheduler as a transition system over any number of CPUs and tasks; what every run of it keeps; what a race is, step by step; when its sleeper lists stay in order, and whom a tick wakes when; runs from boot that go wrong; that nobody is ever stuck; a task's life from its start to the reaper; and the loops over its own lists. |
| `Ipc`, `IpcRuns`, `Notify` | Endpoints and notification counters: the objects with their loops, and a state machine of senders, receivers, wakes and exits over them; whom a message reaches, told from the steps of a run. |
| `Caps`, `Authority`, `AuthorityRuns` | Capability tables; how authority moves through every system call; and what a delegation, a start and a revocation are worth. |
| `Ipi`, `IpiRuns` | Publish, perform, acknowledge; and that nothing published is lost. |
| `Tcp` | The client against a peer and a network that loses, repeats and reorders. |
| `Fat`, `FatImage`, `FileService` | The table, the chain, the file; making an image and reading it back; the server's and the client's half of a read. |
| `Format`, `Strtoul`, `Conversions` | Integer conversions, `strtoul`, and that they undo each other; what numbers look like as text. |

## What the main results say

- **Heap.** After any calls, the list in memory is doubly linked in address order, tiles the regions exactly,
  has no two free neighbours, and the counters count it. No write of the allocator touches another payload, and
  no live block is 48 bytes or more longer than its payload needs.
  `HeapRuns.Run` puts it from the client's side: a client that keeps its own account of what it was given and
  what it wrote, with every allocation a separate sequence of bytes, finds in memory exactly what its account
  says, whatever sequence of allocations, releases, resizes and writes it makes.
- **Scheduler.** `RuleHoldsIffRaceFree`: the rule that a runnable task is held in exactly one place holds in
  every state of a run *if and only if* no decision to wake races with a CPU that is leaving the task, and no
  reap falls between a CPU's release of a task and its look at it. A decision stores Ready and then looks whether
  a CPU has the task, under the table lock; `finish_switch` gives the task up and then looks at its state, under
  no lock. `RaceIsOverlap` says of the steps of a run when the two race: the CPU gives the task up before the
  decision looks, had not looked at the task before Ready was stored, and nobody has started the task again
  before the decision looks. `OverlapSaved` is a run in which only the last of these saves it, and `RaceHappens`
  one from boot that ends with two CPUs running one task.
- **Sleeper lists.** `ListsInOrderIff`: throughout a race-free run every listed task sleeps or is with a waker
  that has yet to come to that list, *if and only if* no listed task is marked Ready by a wake while a CPU has it,
  or by a tick. `StaleEntryHappens` is a run from boot, with no race, in which a listed task is queued and then runs.
- **Progress.** In every state of a race-free run every CPU, waker and decision that is in the middle of something
  can take its next step (`NobodyStuck`); queues are served oldest first; and the stations of a task's life are
  connected: spawned to queued, queued to running, running to blocked, asleep or reaped, woken or due to queued.
  No tick wakes anybody before the deadline its sleep was given.
- **Endpoints and counters.** Messages are conserved and ordered, signals are conserved, and no wake-up is lost. A
  message goes to the partner its endpoint was made with, as the steps of the run say, and there to the task that
  has waited longest; a signal reaches the first in line.
- **Authority.** Nothing is amplified in any run, and an object no copy of which can be passed on stays where
  it is, apart from copies already made: in messages, in grants kept for a restart, or on the kernel stack of a
  call that is between two locks. In the other direction, a capability that is sent or granted arrives with exactly
  the rights that the sender's slot and the mask both have; a service starts, every time, with exactly its grants;
  and a slot is emptied only by its task, or by a call whose task held a Control.
- **Shootdown.** A broadcast that returns true was performed by every other CPU after it was published, as long
  as fewer than 2^32 requests have gone to a CPU; `WrapAnswersItself` is a run that long in which the next one fails.
  The newest request is always in the slot, in the handler's hands or acknowledged, so a broadcast that waits can
  still succeed; and it can come to its end without any answer.
- **TCP.** What is handed out is a prefix of the peer's stream; `Ok(0)` is its end; a successful send was
  accepted by the peer, once and in order; all of it across wrap-around of the sequence space. The state of a
  connection is a function of the segments that arrived, and a call's answer of that state: it gives up after five
  tries and no earlier, and sends nothing again that was acknowledged.
- **FAT.** Whatever is cached, a lookup is what the packed table says; reading in pieces through the service
  gives the same bytes as reading the file whole. An image laid out cluster by cluster reads back as it was laid.
- **C library.** A number printed with any flags, width and precision reads back as itself in its base; `strtoul` on
  any text is characterised by the pieces the text is made of.

## Where code and documentation differ

The model follows the code.

- `Supply::supply` is documented to return at least the bytes asked for (`crates/k1k-alloc/src/lib.rs:43-45`);
  the kernel's supplier does so exactly for requests of up to 16 MiB that the window still has room for
  (`kernel/src/mm/heap.rs:116-120`). `alloc` asks again until the tail of the heap is long enough, and `Heap.Alloc`
  says when that works: a kernel heap whose mappings succeed answers null exactly when no free block fits and the
  free memory at its end and the rest of the window together are too short.
- `add_region` accepts a region that does not start where the heap ends (`crates/k1k-alloc/src/lib.rs:208-236`),
  but `give_block` merges neighbours in the list without comparing addresses (`crates/k1k-alloc/src/lib.rs:464-485`).
  `Heap.AddRegion` says that the heap's order survives exactly when the region is refused or follows.
- The scheduler's head comment says a task is never in two places at once (`kernel/src/sched/mod.rs:9-14`). For
  run queues, CPUs and wakers that is `OneHolder`, with the exact condition above. For sleeper lists it fails
  without any race: `wake` leaves the entry behind when a CPU still has the task
  (`kernel/src/sched/mod.rs:753-755`), and a tick that wakes by a name it took down earlier leaves the entry of a
  later sleep. `ListsInOrderIff` has the exact condition.
- `peak` is raised by `alloc` only, so a block that grows in place (`crates/k1k-alloc/src/lib.rs:423-426`) can
  leave `in_use` above it. `Heap.Realloc` loses `in_use <= peak` exactly when it grows the block in place by more
  than `peak - in_use`, and `HeapRuns.PeakFallsBehind` does it in two calls.
- With two CPUs, `steal` can come back empty-handed although the other queue has work: it makes one pass, and
  when the cursor points at the thief that pass looks at no other queue. `SchedulerLoops.Cores.Steal` states
  the condition in both directions.
- `send` of no bytes succeeds in any state and says nothing about earlier bytes; `Tcp.Tcp.Send` says so.

## Modelling choices

- Addresses are indices into an array of bytes and 0 is null; words are eight bytes, little end first. The size
  of a request is bounded so that its block size fits in 64 bits, which every Rust layout guarantees.
- The allocator relies on regions that lie end to end with lengths in multiples of 16. The kernel's supplier is
  proved to provide that; any other supplier is assumed to.
- In the scheduler each section under a lock is one step, and so is each read or write of an atomic word, with
  these exceptions. `Start` stores the words of the task it starts, and Ready in the task it leaves if that was
  running, in one step: both are in that CPU's own hands, and no other CPU acts on a task that is Ready or Running
  unless it took it off a queue. A decision's test of the state and its store of Ready are one step, because
  nothing outside the table lock writes the state of a blocked or sleeping task. The reaper's tests and the removal
  are one step, because what it tests of a dead task does not change back. A tick may let the table lock go between
  two names, which the code does not: the model has more runs.
- A task in the hands of a waker or of a CPU between two steps is tracked like any other holder.
- In the authority model a step is what a call does under one lock, and the copies it has taken out of a table, a
  queue, an inbox or a service's record are in its hands until it puts them somewhere. A call may fail at any point.
- Clocks, devices, page mapping and the network are nondeterministic: a wait takes any number of turns, a
  sector read or a mapping may fail, and a segment the peer could have sent may arrive at any time.
- Rights are sets of bit positions. Fixed arrays with a count are sequences with a bound.

## Model

| member | source | states |
|---|---|---|
| `HeapRuns.Run` | crates/k1k-alloc/src/lib.rs:313-437 | any sequence of allocations, releases, resizes and client writes leaves in memory exactly what the client's own account of independent byte sequences says, with nothing else in use |
| `HeapRuns.Service` | crates/k1k-alloc/src/lib.rs:60-69 | the same from nothing, for a heap over one fixed range |
| `HeapRuns.Kernel` | kernel/src/mm/heap.rs:235-266 | the same from nothing, for a heap that grows into the kernel's window |
| `HeapRuns.DoResize` | crates/k1k-alloc/src/lib.rs:363-437 | a resize is, to the client, its first min(old, new) bytes carried over and every other allocation untouched |
| `Heap.Heap.Alloc` | crates/k1k-alloc/src/lib.rs:313-342 | the first block that fits is taken; the payload is new and every other one keeps its bytes; `in_use` rises by at least the block size the request needs and by less than 48 bytes more; a kernel heap whose mappings succeed answers null exactly when nothing fits and the free tail with the rest of the window is too short; one that cannot grow, exactly when nothing fits; terminates for every supplier |
| `Heap.Heap.Dealloc` | crates/k1k-alloc/src/lib.rs:347-356 | exactly the named payload goes, its block merges with free neighbours, all others keep place and bytes |
| `Heap.Heap.Realloc` | crates/k1k-alloc/src/lib.rs:363-437 | in place exactly when the block or its free neighbour has room, moved otherwise; the first min(old, new) bytes survive; null for a size above 0 leaves everything as it was; `in_use` rises above `peak` exactly when growth in place exceeds what was left to it |
| `HeapRuns.PeakFallsBehind` | crates/k1k-alloc/src/lib.rs:423-426 | two calls after which `in_use` is above `peak` |
| `Heap.Heap.ResizeInPlace` | crates/k1k-alloc/src/lib.rs:378-426 | done exactly when the block, or the block with a free one after it, is long enough; the payload's common bytes and all others are unchanged, and no 48 bytes are kept that could be given back |
| `Heap.Heap.MovePayload` | crates/k1k-alloc/src/lib.rs:428-436 | the bytes reach a different, newly allocated payload and survive the release of the old one |
| `Heap.Heap.TakeBlock` | crates/k1k-alloc/src/lib.rs:441-461 | first fit; a block that has 48 bytes or more to spare is cut to the size asked for and the rest stays free, any other is taken whole; writes only headers of that block and one link |
| `Heap.Heap.GiveBlock` | crates/k1k-alloc/src/lib.rs:464-485 | the block and its free neighbours become one free block |
| `Heap.Heap.SplitTail` | crates/k1k-alloc/src/lib.rs:493-506 | what is cut off is a free block of its own, joined with a free neighbour; nothing up to the cut is written beyond the header |
| `Heap.Heap.TakeOver` | crates/k1k-alloc/src/lib.rs:395-422 | grows into the free block after it if and only if that has room, and takes no more than it must |
| `HeapSteps.LinkFree` | crates/k1k-alloc/src/lib.rs:167-182 | the words written link a free block between its neighbours, absorbing a free one after it, and no other byte changes |
| `Heap.Heap.HeaderOf` | crates/k1k-alloc/src/lib.rs:151-160 | the word below a live payload leads back to its own header |
| `Heap.Heap.AddRegion` | crates/k1k-alloc/src/lib.rs:208-236 | accepted exactly when long enough, aligned, within the slots and disjoint; a free tail reaches into it, a live one gets a block after it; the heap's order survives exactly when the region is refused or starts where the heap ends |
| `Heap.Heap.Overlaps` | crates/k1k-alloc/src/lib.rs:239-243 | true exactly when some region held shares memory with it |
| `Heap.Heap.Tail` | crates/k1k-alloc/src/lib.rs:246-258 | the links lead to the last block |
| `Heap.Heap.Grow` | crates/k1k-alloc/src/lib.rs:330-337 | growth keeps every payload, and in the kernel the place where the free tail begins; the kernel's supplier is never turned away, so region slots outlast the window |
| `HeapSteps.RoomAtTail` | crates/k1k-alloc/src/lib.rs:208-236 | when nothing fits, a region makes room exactly when the tail with it is long enough |
| `Heap.Heap.Init` | kernel/src/mm/heap.rs:235-266 | the kernel heap starts sound, with its first 16 MiB as one free block if they could be mapped |
| `Heap.Heap.EverythingFreed` | crates/k1k-alloc/src/lib.rs:464-485 | with nothing live, one free block spans all regions and allocations equal releases |
| `Heap.Heap.BytesAddUp` | crates/k1k-alloc/src/lib.rs:260-276 | bytes in use and bytes in free blocks add up to the regions |
| `Heap.Heap.LittleWasted` | crates/k1k-alloc/src/lib.rs:441-461 | in every state of a heap, bytes in use are at most what the live payloads need and 47 for each |
| `Heap.Heap.PayloadsStandApart` | tools/heap_test.rs:183-348 | live payloads are aligned, inside the regions, pairwise disjoint, and resolve to their headers |
| `Blocks.Commit` | crates/k1k-alloc/src/lib.rs:167-182 | headers laid in place of a run of blocks make memory describe the new list, and spare every payload outside the run |
| `Blocks.PayloadWriteKeeps` | crates/k1k-alloc/src/lib.rs:131-160 | a client writing inside its payload disturbs no header, back word or other payload |
| `Blocks.AllFreeIsOne` | crates/k1k-alloc/src/lib.rs:464-485 | a list in shape with nothing in use is one block |
| `Blocks.PayloadsApart` | crates/k1k-alloc/src/lib.rs:313-329 | payloads of one list lie in it, aligned, and share no byte |
| `HeapSteps.PayloadFits` | crates/k1k-alloc/src/lib.rs:131-137 | the block size asked for has room for the payload wherever alignment puts it |
| `Supply.Supplier.Supply` | kernel/src/mm/heap.rs:105-140 | consecutive page-aligned regions inside the window; as long as asked for exactly when that is at most 16 MiB and at most what is left; none only when not ready, used up or refused |
| `Supply.Supplier.Reserve` | kernel/src/mm/heap.rs:100-103 | the window goes on above what was reserved, and stays in order exactly for whole pages inside it |
| `Supply.SlotsLeft` | kernel/src/mm/heap.rs:48-59 | a window with room left has a region slot left |
| `Supply.SlotsGrow` | kernel/src/mm/heap.rs:116-120 | every growth keeps that so |
| `SchedulerSafety.RuleHoldsIffRaceFree` | kernel/src/sched/mod.rs:652-752 | over a whole run: one holder per runnable task, nothing freed held, none lost and placement words agreeing, if and only if no decision that stored Ready while a CPU had the task, or had not looked at it yet, finds no CPU on it, and no reap falls between release and test |
| `SchedulerRaces.RaceIsOverlap` | kernel/src/sched/mod.rs:664-680 | of the steps of a run: a decision races exactly when a CPU gives the task up before the decision looks, does not look at it before Ready is stored, and nobody starts it before the decision looks |
| `SchedulerSafety.StepSafe` | kernel/src/sched/mod.rs:418-487 | every step that does not race keeps the invariant |
| `SchedulerSafety.RaceBreaks` | kernel/src/sched/mod.rs:722-752 | every step that does race breaks the rule at once |
| `SchedulerRuns.RaceHappens` | kernel/src/sched/mod.rs:664-680 | a run of two CPUs from boot, with Ready stored before the CPU gives the task up and the decision's look after the CPU's, that ends with both CPUs running the task and two checks fired |
| `SchedulerRuns.OverlapSaved` | kernel/src/sched/mod.rs:722-755 | a run in which a decision spans a CPU's whole leaving of its task and no race happens |
| `SchedulerSleepers.ListsInOrderIff` | kernel/src/sched/mod.rs:702-764 | over a race-free run: whoever is listed, or about to be, sleeps or is with a waker that has yet to come to that list, if and only if no listed task is marked Ready by a wake that finds it on a CPU or just left by one, or by a tick |
| `SchedulerSleepers.OrderStep` | kernel/src/sched/mod.rs:782-801 | every other step keeps the lists in order |
| `SchedulerSleepers.OvertakeBreaks` | kernel/src/sched/mod.rs:940-955 | every such step leaves an awake task on a list that nobody is coming to |
| `SchedulerSleepers.ListedAreOff` | kernel/src/sched/mod.rs:9-14 | while the lists are in order, no listed task runs or is on a run queue |
| `SchedulerRuns.StaleEntryHappens` | kernel/src/sched/mod.rs:753-761 | a race-free run from boot in which a task is on a sleeper list while it is queued and while it runs |
| `SchedulerSafety.InvMeansOneHolder` | kernel/src/sched/mod.rs:9-14 | the inductive form implies the rule as stated |
| `SchedulerSafety.NothingReported` | kernel/src/sched/mod.rs:418-455 | in a race-free run the scheduler's own checks never fire |
| `SchedulerSafety.NoSleeperForgotten` | kernel/src/sched/mod.rs:702-714 | a sleeping task is on a list, named by a tick in progress, or on its way onto a list |
| `SchedulerSafety.ReapIsSafe` | kernel/src/sched/mod.rs:851-887 | what the reaper frees is dead, held by no queue, CPU, waker or sleeper list, before or after, was never freed before, and is released once |
| `SchedulerSafety.FreedForGood` | kernel/src/sched/mod.rs:851-887 | once freed, a task is in no table and in no hand for the rest of the run |
| `SchedulerSafety.StartOwn` | kernel/src/sched/mod.rs:522-645 | a CPU never starts the task it runs or one another CPU has claimed |
| `SchedulerTimes.NoEarlyWake` | kernel/src/sched/mod.rs:894-955 | whoever a tick acts on had called, on that CPU, for a sleep until a deadline the clock had reached when the tick looked |
| `SchedulerTimes.EntryMarked` | kernel/src/sched/mod.rs:702-714 | every entry on a sleeper list is there because its task called for a sleep until that deadline on that CPU |
| `SchedulerProgress.NobodyStuck` | kernel/src/sched/mod.rs:522-680 | in every state of a race-free run every CPU in the middle of a switch, every waker with a task in hand and every decision under way can take its next step |
| `SchedulerProgress.OldestFirst` | kernel/src/sched/mod.rs:458-487 | what a CPU takes off a queue is what has been on it longest, counted from the steps that queued it |
| `SchedulerProgress.WokenIsQueued` | kernel/src/sched/mod.rs:722-764 | a blocked or sleeping task nobody has can be woken and reaches the end of any queue, off every list, with everything else as it was |
| `SchedulerProgress.QueuedRuns` | kernel/src/sched/mod.rs:522-645 | the first task on a queue is the one its CPU runs next, claimed, placed and unreported |
| `SchedulerLives.BlockLeaves` | kernel/src/sched/mod.rs:718-720 | a task that blocks is off its CPU, held by nobody, and the CPU is idle |
| `SchedulerLives.SleepLeaves` | kernel/src/sched/mod.rs:702-714 | a task that sleeps is off its CPU and last on that list with its own deadline |
| `SchedulerLives.SleeperReturns` | kernel/src/sched/mod.rs:894-955 | one tick brings a sleeper whose time has come, with fewer than 64 due before it, to the end of any queue |
| `SchedulerLives.EndIsReaped` | kernel/src/sched/mod.rs:821-887 | a task that ends, on no list, is taken by the reaper once its CPU has left it: gone from the table, released once, every other task as it was |
| `SchedulerLives.SpawnIsQueued` | kernel/src/sched/mod.rs:208-239 | a new task reaches the end of any queue under a new number |
| `SchedulerLoops.Sweep` | kernel/src/sched/mod.rs:910-931 | compaction in place keeps what is not due or does not fit and names the rest: every entry is one or the other, at most 64 are named, and a due one is kept only when 64 were |
| `SchedulerLoops.SweepLosesNone` | kernel/src/sched/mod.rs:910-931 | every sleeper is kept or named, none twice, and a due one is kept only when 64 were named |
| `SchedulerLoops.SweepSplits` | kernel/src/sched/mod.rs:910-931 | the list is split at one point: before it the due are named and the others kept, in order; after it all are kept; and the point is the end or where the room ran out |
| `SchedulerLoops.OthersStay` | kernel/src/sched/mod.rs:782-801 | every entry of every other task stays |
| `SchedulerLoops.Retain` | kernel/src/sched/mod.rs:782-801 | the list without every entry of the task |
| `SchedulerLoops.SleepingOn` | kernel/src/sched/mod.rs:768-779 | true exactly when some CPU lists the task |
| `SchedulerLoops.Cores.Steal` | kernel/src/sched/mod.rs:493-521 | takes the head of another queue; empty-handed exactly when all others are empty, or with two CPUs and the cursor at this one, which then moves on |
| `SchedulerLoops.TaskTable.TakeDead` | kernel/src/sched/mod.rs:851-887 | frees the first reapable task, with no live capability left in its table, and touches no other task's |
| `SchedulerLoops.TaskTable.FindDead` | kernel/src/sched/mod.rs:857-861 | the first on the list that is off every CPU, queue and sleeper list |
| `Ipc.Endpoint.Deliver` | kernel/src/ipc/mod.rs:82-112 | the loop hands the message to the first receiver in line that is blocked, or loses it to the first that has vanished; with neither in line it is queued below the limit, else refused |
| `Ipc.Endpoint.TryRecv` | kernel/src/ipc/mod.rs:115-122 | the oldest queued message, or nothing |
| `Ipc.Endpoint.TakeOrRegister` | kernel/src/ipc/mod.rs:124-145 | the locked section of `recv` is the machine's receive step: the oldest queued message, else in line, with an empty inbox, and blocked |
| `Ipc.MessagesConserved` | kernel/src/ipc/mod.rs:64-145 | over every run: given out in the order accepted, each exactly once or still in the queue or one inbox, at most 64 queued, none queued while a receiver waits |
| `Ipc.NoLostWakeup` | kernel/src/ipc/mod.rs:124-145 | a task inside `recv` is in line and blocked, or has its message and is awake or about to be |
| `Ipc.NoVanishedReceiver` | kernel/src/ipc/mod.rs:82-112 | the branch for a receiver that is gone is never taken, and a send is refused exactly when the queue is full |
| `Ipc.ResumeFinds` | kernel/src/ipc/mod.rs:124-145 | a task that wakes in `recv` finds its message |
| `Ipc.StepKeeps` | kernel/src/ipc/mod.rs:64-145 | every step of the machine keeps the joint invariant of endpoints and tasks |
| `IpcRuns.SendReaches` | kernel/src/ipc/mod.rs:60-112 | a send adds its message to the log of the endpoint that was made as the partner of the one sent on, or of that one if it was made alone, exactly when somebody waits there or fewer than 64 are queued, and to no other log |
| `IpcRuns.PartnersStay` | kernel/src/ipc/mod.rs:53-73 | the two halves a pair is made of are each other's partners for ever, and an endpoint made alone never has one |
| `IpcRuns.PartnersAre` | kernel/src/ipc/mod.rs:38-73 | the peers in every state of a run are the partners its steps made |
| `IpcRuns.ReceiveReturns` | kernel/src/ipc/mod.rs:115-145 | what finds something queued returns the oldest of it; otherwise `try_recv` returns nothing and `recv` blocks at the end of the line |
| `IpcRuns.ResumeReturns` | kernel/src/ipc/mod.rs:124-145 | a task that wakes in `recv` returns the message it was woken for |
| `IpcRuns.FirstComeFirstServed` | kernel/src/ipc/mod.rs:82-112 | a message that finds tasks waiting goes to the one that has waited longest, counted from the steps |
| `IpcRuns.SentIsReturned` | kernel/src/ipc/mod.rs:74-145 | a message sent while somebody waits is returned by the waiter's own call three steps later |
| `IpcRuns.NobodyShutOut` | kernel/src/ipc/mod.rs:74-145 | in every state every endpoint can be sent to, a task in no call can make any, and whoever has a message can be woken or goes on |
| `IpcRuns.EndLeavesNothing` | kernel/src/ipc/mod.rs:82-112 | a task that ends is in no line and about to be woken by nobody |
| `Notify.Notify.Signal` | kernel/src/notify.rs:126-157 | counts at least one, saturates at 2^32 - 1 with the excess counted, and picks exactly the first blocked waiters, as many as signals; the machine's record step |
| `Notify.Notify.Turn` | kernel/src/notify.rs:167-199 | takes one signal, or all for that mode; with none, only asking returns and the other modes join the end of the line, blocked; the machine's turn |
| `Notify.NoLostWakeup` | kernel/src/notify.rs:126-199 | while a task is in line, pending is at most the woken tasks that have not looked; so none waits in vain |
| `Notify.SignalsConserved` | kernel/src/notify.rs:126-199 | in every state of every run, signals counted are on their way to the lock, pending, saturated, taken and not counted yet, or counted as taken |
| `Notify.PicksInOrder` | kernel/src/notify.rs:140-153 | picking goes down the line, passes over nobody who is blocked, and stops only when enough are picked or the line is at its end |
| `Notify.TurnByMode` | kernel/src/notify.rs:167-199 | what each mode takes, and who joins the line, first time round and after a wake-up |
| `Notify.SignalCounts` | kernel/src/notify.rs:126-138 | a signal counts for at least one and is recorded or folded into a full counter, all of it; what is taken is counted once |
| `Notify.SignalReachesFirst` | kernel/src/notify.rs:126-199 | a signal can be recorded and its wake-up sent, and the first in line comes away with what its mode asks for |
| `Notify.PickedGoesOn` | kernel/src/notify.rs:148-199 | whoever has been picked is awake or can be woken, and then looks again |
| `Caps.CapTable.Insert` | kernel/src/obj/mod.rs:212-227 | the first slot that is neither live nor revoked, or a new one below 256; every other slot as it was; refused exactly when there is none |
| `Caps.CapTable.RevokeSlot` | kernel/src/obj/mod.rs:261-273 | a live slot becomes a tombstone and every other slot stays as it was |
| `Caps.CapTable.RemoveSlot` | kernel/src/obj/mod.rs:315-318 | the slot is empty and can be handed out again; every other slot and every tombstone stays |
| `Caps.CapTable.RevokeAll` | kernel/src/syscall/mod.rs:235-250 | ends with no live slot, having revoked exactly those that were |
| `Caps.SlotsAddUp` | kernel/src/obj/mod.rs:285-312 | live, revoked and free slots always add up to 256 |
| `Caps.RevokedForGood` | kernel/src/obj/mod.rs:194-273 | over any history of calls a revoked slot never holds a capability again |
| `Caps.NoUsableNoFree` | kernel/src/obj/mod.rs:212-227 | an insert is refused exactly when no slot is free |
| `Caps.HistorySound` | kernel/src/obj/mod.rs:194-318 | every table a history reaches is well formed |
| `Caps.Derive` | kernel/src/obj/mod.rs:241-248 | a copy is made exactly of a live capability with GRANT, and has exactly the rights that it and the mask both have |
| `Authority.NoAmplification` | kernel/src/syscall/mod.rs:180-218 | in every state of every run, no capability anywhere, in the hands of a call included, carries a right its object was not created or first granted with |
| `Authority.Confinement` | kernel/src/syscall/mod.rs:442-507 | once no copy of an object carries GRANT, in the hands of a call included, none ever does, and a task gains it only from a copy that was there then: in a message, in a call's hands or in a service's grants |
| `Authority.CopySource` | kernel/src/syscall/mod.rs:180-218 | outside the tables a step makes at most one copy and otherwise only moves or repeats them |
| `Authority.OldCopiesWereThere` | kernel/src/service/mod.rs:91-104 | a copy with an earlier number is one the earlier state had |
| `Authority.EveryCapHasAnOrigin` | kernel/src/obj/mod.rs:216-247 | whatever a step leaves anywhere was made by it or descends, with no more rights, from something that was there |
| `Authority.SlotSource` | kernel/src/service/mod.rs:319-392 | a capability that turns up in a slot was in the hands of the call that put it there: a receive, a create or a start |
| `Authority.RunNumbered` | kernel/src/syscall/mod.rs:180-218 | the numbering that tells earlier copies from later ones holds from boot on |
| `AuthorityRuns.SentIsReceived` | kernel/src/syscall/mod.rs:180-218 | a capability sent over an endpoint arrives: the receiver has, in a slot that was free, the same object with exactly the rights the sender's slot and the mask both have |
| `AuthorityRuns.SentToWaiting` | kernel/src/syscall/mod.rs:180-218 | the same for a receiver that is already waiting |
| `AuthorityRuns.ReceiverWaits` | kernel/src/syscall/mod.rs:193-210 | who may receive can wait where nothing is queued |
| `AuthorityRuns.WokenTakes` | kernel/src/syscall/mod.rs:193-218 | a receiver woken with an empty inbox takes the oldest queued copy |
| `AuthorityRuns.FirstInFirstOut` | kernel/src/ipc/mod.rs:82-122 | a queue of copies changes at its two ends only |
| `AuthorityRuns.CopyIsExact` | kernel/src/obj/mod.rs:241-248 | wherever a copy is found later in the run, it is the object asked for with exactly the rights asked for and held |
| `AuthorityRuns.SpawnGrants` | kernel/src/syscall/mod.rs:442-507 | whoever holds a Control with SPAWN and an image can start a service with up to eight grants, and the new task has them in the order asked for, from slot 0, each exact |
| `AuthorityRuns.StartedWithGrants` | kernel/src/service/mod.rs:319-392 | a task published for a service holds exactly the service's grants, and so does every task published for it later in the run |
| `AuthorityRuns.RestartStarts` | kernel/src/service/mod.rs:319-392 | any service on record can be started again, with all its grants and nothing else changed |
| `AuthorityRuns.RegisteringNeedsSpawn` | kernel/src/syscall/mod.rs:442-507 | a service is registered only by a task that showed a Control with SPAWN for it |
| `AuthorityRuns.SlotLost` | kernel/src/syscall/mod.rs:225-275 | a capability leaves a slot only when its task drops it or ends, or by a revocation whose task was its holder or held a Control when the call began |
| `AuthorityRuns.ControlRevokes` | kernel/src/syscall/mod.rs:258-268 | whoever holds a Control can take any capability of any task away for good, and every task its own, with nothing else changed |
| `AuthorityRuns.TakenAway` | kernel/src/syscall/mod.rs:225-275 | a revocation empties the slot for good, a drop empties it, and neither touches anything else |
| `AuthorityRuns.EndTakesTable` | kernel/src/sched/mod.rs:851-887 | a task that ends takes its table with it and no other capability |
| `AuthorityRuns.FailedCallLeavesNothing` | kernel/src/syscall/mod.rs:442-507 | a call that fails half way has put nothing anywhere |
| `AuthorityRuns.MadeUsable` | kernel/src/syscall/mod.rs:277-307 | a create call gives its task the new object in a free slot, with the rights its kind has a use for, GRANT, and no other |
| `Ipi.TrueMeansEveryCpuDidIt` | kernel/src/arch/x86_64/ipi.rs:100-149 | when a broadcast returns true, every other CPU performed that request after it was published, whatever was abandoned or kicked before |
| `Ipi.AckMeansPerformed` | kernel/src/arch/x86_64/ipi.rs:152-193 | an acknowledgement as new as a request means that request was performed since |
| `Ipi.WrapAnswersItself` | kernel/src/arch/x86_64/ipi.rs:100-149 | a run of 2^32 - 1 answered broadcasts after which the number wraps and the next returns true with nothing performed |
| `Ipi.ManyAnswered` | kernel/src/arch/x86_64/ipi.rs:100-193 | for every number there is a run of that many answered broadcasts |
| `Ipi.StepKeeps` | kernel/src/arch/x86_64/ipi.rs:100-193 | every step of sender and handlers keeps the protocol's invariant |
| `IpiRuns.NothingLost` | kernel/src/arch/x86_64/ipi.rs:100-193 | the newest request published to a CPU is in its slot, in its handler's hands, or acknowledged |
| `IpiRuns.CanSucceed` | kernel/src/arch/x86_64/ipi.rs:122-149 | a broadcast that waits can still return true, however the CPUs have fared so far |
| `IpiRuns.PublishesAll` | kernel/src/arch/x86_64/ipi.rs:100-121 | a broadcast that has the lock reaches every slot but its own with its request |
| `IpiRuns.LockComesBack` | kernel/src/arch/x86_64/ipi.rs:100-149 | whether or not any CPU answers, a broadcast can come to its end and give the lock back |
| `IpiRuns.OneBroadcast` | kernel/src/arch/x86_64/ipi.rs:100-149 | whoever has the broadcast lock is the CPU that took it last, with the request it took it for, throughout |
| `IpiRuns.AnsweredFirst` | kernel/src/arch/x86_64/ipi.rs:100-149 | the lock is given back only after an answer |
| `IpiRuns.KickStands` | kernel/src/arch/x86_64/ipi.rs:240-258 | the flag of a CPU is up exactly when it has been kicked while not idle since its handler last ran |
| `Tcp.Tcp.OnSegment` | user/svc/net/src/tcp.rs:100-143 | for any segment the peer could have sent: received bytes stay a prefix of its stream, both windows stay in step with positions, and exactly the data, acknowledgement and end it brings are taken |
| `Tcp.Tcp.TakeData` | user/svc/net/src/tcp.rs:119-130 | data enters the ring exactly when it is what comes next, as much as fits |
| `Tcp.Tcp.TakeAck` | user/svc/net/src/tcp.rs:115-118 | the acknowledged position moves forward, never past what was sent and never back, across wrap-around |
| `Tcp.Tcp.TakeFin` | user/svc/net/src/tcp.rs:131-138 | the end is taken once, and only when the whole stream has arrived |
| `Tcp.Tcp.TakeAnswer` | user/svc/net/src/tcp.rs:106-114 | the handshake puts both streams at position 0 |
| `Tcp.Tcp.Recv` | user/svc/net/src/tcp.rs:245-263 | bytes handed out are always a prefix of the peer's stream; with bytes in the ring it succeeds, fills the buffer or empties the ring; `Ok(0)` into a non-empty buffer means all of the stream was read; a timeout means open, empty and no end in sight, and an error of the other kind that the connection is gone; the state afterwards is what the arrivals make it |
| `Tcp.Tcp.Send` | user/svc/net/src/tcp.rs:215-242 | success with data means everything sent is acknowledged and the peer has accepted every byte, once and in order, however much it is; a timeout only after the last piece was sent five times on a connection still open; the other error only when it is not open, and then nothing is sent |
| `Tcp.Tcp.SendChunk` | user/svc/net/src/tcp.rs:220-239 | acknowledged exactly when the peer's acknowledgement covers all that was sent; sent once for each try and five times before giving up; never sent again once the arrivals had acknowledged it or reset the connection |
| `Tcp.Tcp.Connect` | user/svc/net/src/tcp.rs:183-212 | success exactly when the arrivals complete the handshake, refusal exactly when they reset it, a timeout only after five requests; failure leaves the connection closed |
| `Tcp.Tcp.Close` | user/svc/net/src/tcp.rs:265-279 | an open connection sends exactly one end after everything else and is closed; closing what is not open sends nothing |
| `Tcp.Tcp.Wait` | user/svc/net/src/tcp.rs:171-181 | returns whether the condition holds; the state is what the segments that arrived meanwhile make it, in order |
| `Tcp.Tcp.Pump` | user/svc/net/src/tcp.rs:145-169 | at most one segment is taken in, its effect is exactly what its sequence number, acknowledgement, data and flags say, and it is acknowledged exactly when it asks for that |
| `Tcp.GeqIs` | user/svc/net/src/tcp.rs:49-51 | within half the space, comparing numbers is comparing positions |
| `Tcp.WireExact` | user/svc/net/src/tcp.rs:119-134 | less than the whole space apart, equal numbers are equal positions |
| `Tcp.AckInWindow` | user/svc/net/src/tcp.rs:115-118 | the two comparisons accept exactly the acknowledgements inside the window |
| `Fat.Reader.NextCluster` | user/svc/fs/src/fat.rs:131-170 | whatever is cached, the next cluster is what the packed table on the disk says, for all three widths; an error only for a failed read or an entry outside the disk |
| `Fat.Reader.Next12` | user/svc/fs/src/fat.rs:150-168 | the same for entries that straddle two sectors |
| `Fat.Reader.FatSector` | user/svc/fs/src/fat.rs:120-128 | the cached sector is always a sector of the disk |
| `Fat.PackedReads` | user/svc/fs/src/fat.rs:137-168 | reading an entry of a table packed entry by entry gives that entry back |
| `Fat.Reader.ReadCluster` | user/svc/fs/src/fat.rs:214-229 | batches of sixteen sectors add up to the cluster, which `FatImage.ClusterLaid` places; an error only for a failed read or a cluster outside the disk |
| `Fat.Reader.ReadFile` | user/svc/fs/src/fat.rs:232-254 | the clusters of the chain one after the other, cut off at the file's size, for chains that end, run longer than the file or in a circle; an error only for a failed read |
| `Fat.Reader.ReadAt` | user/svc/fs/src/fat.rs:259-296 | exactly the slice asked for of that file, or an error for a failed read, too little scratch or a chain that is too short; nothing else in the buffer changes |
| `Fat.Reader.Seek` | user/svc/fs/src/fat.rs:278-283 | the cluster and position that hold an offset |
| `Fat.BytesAt` | user/svc/fs/src/fat.rs:112-118 | where each cluster stands in its file |
| `Fat.OneFile` | user/svc/fs/src/fat.rs:232-254 | what a file holds does not depend on how far its chain is followed |
| `FatImage.ClusterLaid` | user/svc/fs/src/fat.rs:116-118 | the cluster read under a number is the one laid there: the first after the system area is number 2 |
| `FatImage.ChainLaid` | user/svc/fs/src/fat.rs:131-170 | a packed table whose entries are linked makes the chain they spell |
| `FatImage.FileLaid` | user/svc/fs/src/fat.rs:232-254 | reading a file of an image made cluster by cluster gives those clusters as they were laid, one after the other, cut off at the size |
| `FileService.Server.OpRead` | user/svc/fs/src/serve.rs:134-161 | each refusal with its reason and nothing written; otherwise the file's bytes where asked and nowhere else |
| `FileService.Server.Install` | user/svc/fs/src/serve.rs:124-131 | the first free slot; the new handle names the file and every other handle what it did |
| `FileService.Server.Release` | user/svc/fs/src/serve.rs:235-244 | the handle names nothing afterwards, every other one what it did |
| `FileService.FileClient.Read` | user/rt/src/file.rs:127-150 | as many of the file's bytes as there are and fit, or a reason |
| `FileService.FileClient.ReadAll` | user/rt/src/file.rs:153-164 | pieces of 1024 bytes add up to the file, the same bytes `ReadFile` gives |
| `Format.Out.PutInt` | libc/src/format.c:68-100 | puts exactly the text of the conversion, never past the buffer's capacity |
| `Format.Out.Convert` | libc/src/format.c:16-21 | the digits in reverse, at most 22 of them, so a buffer of 24 is enough |
| `Format.Out.Put` | libc/src/format.c:10-13 | counts what does not fit, and writes nothing beyond the capacity |
| `Format.Out.Pad` | libc/src/format.c:14-14 | repeats the character, and nothing for a negative count |
| `Format.Out.Finish` | libc/src/format.c:105-106 | as much of the text as fits, then a NUL; the result is the full length |
| `Format.TextWidth` | libc/src/format.c:92-98 | the text is as wide as asked, or as it needs |
| `Format.DigitsRead` | libc/src/format.c:16-21 | the digits printed stand for the number |
| `Format.AtMost22` | libc/src/format.c:49-49 | no 64-bit number has more than 22 digits in base 8 or above |
| `Strtoul.Strtoul` | libc/src/stdlib.c:50-73 | the number the longest run of digits spells if it fits in 64 bits, the largest otherwise; negated after a minus; where it ends |
| `Strtoul.Guard` | libc/src/stdlib.c:68-68 | the test before each digit is exactly whether the number still fits |
| `Strtoul.RoundTrip` | libc/src/format.c:68-100 | for every 64-bit number, the text of `%lu`, `%#lx`, `%#lX` and `%#lo` reads back as it with base 0, all of it |
| `Strtoul.PrintAndRead` | libc/src/stdlib.c:50-73 | the same for the two routines themselves, through a buffer |
| `Conversions.Reads` | libc/src/stdlib.c:50-73 | white space, a sign, a mark of the base, as many digits as there are and a rest: the value is what the digits spell, negated modulo 2^64 after a minus, the largest when out of range, and the text is consumed up to the rest, in any base |
| `Conversions.ReadsNothing` | libc/src/stdlib.c:50-73 | where no digit follows, the value is 0 and nothing is consumed |
| `Conversions.BareText` | libc/src/format.c:83-92 | a number on its own is its sign, its mark, zeros and digits: as many as the precision asks for, a leading zero for octal |
| `Conversions.Padded` | libc/src/format.c:92-98 | a number short of its width is filled up with spaces in front, behind when it is to stand left, or with zeros after sign and mark |
| `Conversions.ReadsBack` | libc/src/format.c:68-100 | whatever its flags, width and precision, a number printed in base 8, 10 or 16 reads back in that base as itself, negated after a minus |
| `Conversions.Positional` | libc/src/stdlib.c:61-69 | a string of digits is a sum of powers of the base |
| `Conversions.DigitsInOrder` | libc/src/stdlib.c:62-66 | the digits of every base up to 36, in both cases, and nothing else |
| `Conversions.CaseOf` | libc/src/format.c:16-21 | letters among the digits printed are of the case asked for |

## Left out

- Hardware: interrupt controllers, timers, context switching, framebuffer, disk and network devices. They are foreign state; what the model needs of them is nondeterministic.
- Page tables, the ELF loader and the physical frame allocator: they rest on an external mapper, or would add only easier members.
- Heap.Heap.AddRegion: a region whose length is not a multiple of 16 or that is not memory is a caller's mistake; and of a heap given a region that does not follow, only that its order is lost is stated.
- `alloc_zeroed` and the locking wrappers around the heap: one fill and one lock.
- Announcing new heap pages to other CPUs: a second growth in one call overwrites the pending range.
- Quanta, affinity, kicks of idle CPUs and the choice of CPU for a woken task: the scheduler model lets a waker push to any queue.
- Fairness: what is proved is that the next step can always be taken and where it leads, not that it is taken in time.
- Weak memory: atomic words are read and written one step at a time.
- Messages without capabilities in the authority model, and object kinds that only differ in what they name.
- TCP segment layout, checksums, ports and the advertised window; the peer is not held to the window.
- FAT mount geometry, directories and names, and chains that lead to clusters outside the disk.
- The format string parser, `%c` and `%s`, and the narrowing of short arguments: the model starts from a parsed conversion and a 64-bit magnitude with its sign.
- `strtol`: it compares a value `strtoul` has already negated.
- Shell, supervisor policy, drivers, TLS, DHCP, DNS and build scripts: plumbing or thin wrappers.
