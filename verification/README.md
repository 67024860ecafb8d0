# Verified model of the Chick kernel core

A Dafny model of the hard parts of a small capability kernel for x86-64: its page tables, its
synchronous IPC and earliest-deadline-first executor, its capability derivation list, its untyped
memory allocator, its capability address resolution and its one-time initialisation cell.  The
main results are statements for all inputs, all states or all sequences of operations; where the
code fails a property, a concrete input or run shows it beside the exact condition.

Verify everything with `dafny verify dfyconfig.toml`.

## Layout

| files | contents |
|---|---|
| `PageEntry`, `VSpace`, `AddressSpace`, `PageTableRuns`, `FrameMapping` | page-table words, the table code over memory, the record of tables and pages it is compared with, sequences of operations, rights along a path |
| `Threads`, `Scheduler`, `Ipc` | thread blocks and intrusive queues, the executor, the endpoint operations, as functions of the kernel state |
| `Joint`, `JointSteps`, `JointCancel`, `JointBadged`, `JointRuns` | the joint invariant of endpoints and executor and its preservation by every operation and every run |
| `IpcOrder`, `IpcFates`, `IpcCalls`, `SecondCall`, `IpcWake` | order and contents of messages, what becomes of blocked senders, calls and replies, where threads are, over whole runs |
| `IpcRepair` | the rendezvous with its wake-up repaired, and what that guarantees |
| `Edf`, `IdleExample` | deadlines over whole runs, and when the idle thread runs |
| `Machine` | the executor, endpoint and queue code as one object updated in place, each method equal to its function |
| `Derivation`, `Database`, `Mdb` | derivation forests and their listings, the database of all chains, the pointer code |
| `Untyped`, `RetypeTree`, `RetypedPages` | `retype` and its packed watermark, every tree of retype calls, what its frames and VSpaces are to the page tables |
| `CNode`, `CSpace` | CNode capabilities, and guarded radix-trie resolution over any capability graph |
| `OnceLock` | the compare-and-swap protocol as interleaved atomic steps |
| `Bits`, `Caps`, `Sequences`, `Wrappers` | arithmetic on bit fields, raw capabilities, sequences without repetition, option and result |

## Conventions

- Thread and endpoint pointers are numbers that index tables of records; capability slots and page
  tables keep their own form, objects with links and words in memory.
- Words are natural numbers with explicit wrap-around where it can happen, and 64-bit vectors in
  the page tables.
- The joint system has one core.  The acting thread is the one on the processor, in state Running
  and not the idle thread.  A system call that leaves its thread not Running is followed by
  rescheduling, as the comments in `src/kernel/src/objects/endpoint.rs` at lines 180 and 248 say.
  User code is one operation that rewrites the running thread's fifteen registers.
- The ready heap is a multiset of at most 64 entries whose pop returns the least by deadline and
  then by thread.
- A table frame handed to `install_table` is page aligned, zeroed and used nowhere else in the
  tables; physical addresses are below 2^52, the limit the address type enforces.
- Page-table and message-register assertions that only debug builds check are not modelled as
  stops; `expect`, `assert!` and address-limit panics are.

## Where the code differs from what its comments suggest

The model follows the code.

- A rendezvous sets its partner Inactive and then wakes it.  `wake` accepts blocked threads only,
  so the partner is left in no place from which it could run (`ReceiverIsStranded`,
  `SenderIsStranded`, `StrandedForever`).  `IpcRepair` proves what `enqueue` in its place would do.
- Cancelling an endpoint, or the senders with a badge, ignores that the heap may be full: the
  waiters it has no room for are taken off the queue and never restarted (`CancelAllRestarts`,
  `CancelBadgedRestarts`).
- The idle thread returns to the heap like any other when it is switched away from, with the latest
  deadline, and so can run while a thread without a deadline is ready (`IdleRunsAmidReady`,
  `ScheduleIdlesWhen`, `PreemptIdlesWhen`, `IdleOnlyAtTheEnd`).
- The badge is written to message register 0 and overwritten by the copy that follows
  (`TransferIs`).
- A second call overwrites the recorded caller (`StepRemembersWhen`, `SecondCallForgetsFirst`).
- `enqueue` does not mark the thread, so a second call adds a duplicate (`EnqueueTwiceDuplicates`,
  `EnqueueKeepsWhen`).
- `revoke` erases the whole rest of the chain, not only descendants (`RevokeIsExactWhen`,
  `RevokeErasesSiblings`).
- `retype` to CNode fails the assertion of the mint for more than one slot, and for one slot makes
  a capability that resolves no bits (`RetypedCNodesResolveNothing`), after clearing the memory.
- Resolution need not end once it meets such a capability: the assertion at line 101 of
  `src/kernel/src/cspace.rs` is absent from release builds (`ResolutionEndsWhen`,
  `ZeroBitNodeNeverResolves`).
- `retype` to Tcb is refused inside the loop, at the first slot.
- The watermark of a region of 2^58 bytes or more wraps when the region is full
  (`WatermarkIsTrueWhen`, `FullRegionIsHandedOutTwice`).

## Model

| member | source | states |
|---|---|---|
| `PageTableRuns.RunsStaySound` | src/kernel/src/objects/vspace.rs:174-497 | every state of every sequence of maps, unmaps and table installs keeps the tables an alias-free tree whose entries are exactly what the record of tables and pages says, with zero everywhere else |
| `PageTableRuns.WalkInAnyRun` | src/kernel/src/objects/vspace.rs:110-172 | in every state reachable from an empty PML4, `walk` on every canonical address is lookup in a map of pairwise disjoint 4K, 2M and 1G pages: frame, size and level if one covers the address, a hole otherwise |
| `PageTableRuns.StepKeeps` | src/kernel/src/objects/vspace.rs:174-497 | one map, unmap or install, successful or not, keeps that invariant |
| `PageTableRuns.MapMeans` | src/kernel/src/objects/vspace.rs:174-333 | a map of any size fails with exactly the error its checks or the record dictate and then writes nothing; otherwise the place was free and one leaf entry is written |
| `PageTableRuns.MapSucceedsWhen` | src/kernel/src/objects/vspace.rs:174-333 | for every size, address, frame and state of the tables: a map succeeds exactly when the address is canonical, address and frame have the low 12, 21 or 30 bits clear, the table above is recorded and its place holds neither table nor page; it reports an existing mapping or a missing table exactly when the arguments are in order and the record has one on the path |
| `PageTableRuns.MapRejectsWhen` | src/kernel/src/objects/vspace.rs:180-190 | for every input, which of the three argument errors is reported: out of canonical range, else misaligned address, else misaligned frame |
| `PageTableRuns.InstallMeans` | src/kernel/src/objects/vspace.rs:417-497 | the same for `install_table` at levels 1 to 3; any other level is refused |
| `PageTableRuns.InstallSucceedsWhen` | src/kernel/src/objects/vspace.rs:417-497 | for every level, address and frame, the exact condition of success and of each of the four errors of `install_table`, on the bits of the arguments and the record |
| `PageTableRuns.UnmapMeans` | src/kernel/src/objects/vspace.rs:355-415 | `unmap` returns the frame and size of the page over the address and clears its one entry; with no page there it fails and writes nothing |
| `PageTableRuns.MapTranslates` | src/kernel/src/objects/vspace.rs:174-333 | a successful map turns every address of its page from unmapped to mapped and changes no other translation |
| `PageTableRuns.UnmapTranslates` | src/kernel/src/objects/vspace.rs:355-415 | a successful unmap turns every address of one page from mapped to unmapped and changes no other translation |
| `PageTableRuns.InstallTranslates` | src/kernel/src/objects/vspace.rs:417-497 | installing a fresh table leaves every mapped address as it was and maps nothing new |
| `PageTableRuns.MapThenUnmap` | src/kernel/src/objects/vspace.rs:174-415 | map of any size, then unmap at any address inside the page: the same frame and size come back and table memory is restored exactly |
| `PageTableRuns.CanonicalMeans` | src/kernel/src/objects/vspace.rs:99-103 | canonical addresses are those below 2^47 and the top 2^47 |
| `PageTableRuns.PathOfAddress` | src/kernel/src/objects/vspace.rs:90-97 | the path of every address: bits 39 to 47 index the PML4, and nine bits less each table below |
| `PageTableRuns.HugePageMeans` | src/kernel/src/objects/vspace.rs:91-103 | two canonical addresses share the path to a 1G page exactly when they lie in the same 1G block |
| `PageTableRuns.LargePageMeans` | src/kernel/src/objects/vspace.rs:91-103 | the same for 2M blocks |
| `PageTableRuns.SmallPageMeans` | src/kernel/src/objects/vspace.rs:91-103 | the same for 4K blocks |
| `AddressSpace.DescendMeans` | src/kernel/src/objects/vspace.rs:110-172 | under the invariant, following entries in memory finds at each depth the table, page or hole recorded on the path of the address |
| `AddressSpace.EnterMeans` | src/kernel/src/objects/vspace.rs:174-333 | writing an entry succeeds or fails with the error the record dictates, and touches one memory location |
| `AddressSpace.WalkFindsPage` | src/kernel/src/objects/vspace.rs:110-172 | `walk` reports a recorded page with its frame, size and level |
| `AddressSpace.WalkFindsHole` | src/kernel/src/objects/vspace.rs:110-172 | `walk` reports otherwise the level of the first table on the path without an entry |
| `AddressSpace.OnePageOnPath` | src/kernel/src/objects/vspace.rs:91-97 | no address is under two recorded pages |
| `AddressSpace.AddPageKeeps` | src/kernel/src/objects/vspace.rs:174-333 | writing a leaf at a free place keeps the tree sound |
| `AddressSpace.RemovePageKeeps` | src/kernel/src/objects/vspace.rs:355-415 | clearing a leaf keeps the tree sound |
| `AddressSpace.AddTableKeeps` | src/kernel/src/objects/vspace.rs:417-497 | linking a fresh zeroed frame as a table keeps the tree sound and alias free |
| `VSpace.Tables.WalkPage` | src/kernel/src/objects/vspace.rs:110-172 | the code with its early returns at each level computes the specified walk |
| `VSpace.Tables.MapPage` | src/kernel/src/objects/vspace.rs:174-333 | the code of the three map functions, with checks in order, has the specified effect and error |
| `VSpace.Tables.UnmapPage` | src/kernel/src/objects/vspace.rs:355-415 | the code has the specified effect, frame, size and error |
| `VSpace.Tables.Install` | src/kernel/src/objects/vspace.rs:417-497 | the code has the specified effect and error for every level value |
| `PageEntry.BuildFlags` | src/kernel/src/arch/x86_64/vspace/entry.rs:65-90 | the accumulated flag word is the specified union of bits |
| `PageEntry.NewPage` | src/kernel/src/arch/x86_64/vspace/entry.rs:229-232 | a 4K leaf is address and flags |
| `PageEntry.NewLargePage` | src/kernel/src/arch/x86_64/vspace/entry.rs:148-151 | a 1G or 2M leaf is the same with the page-size bit |
| `PageEntry.TableEntryReads` | src/kernel/src/arch/x86_64/vspace/entry.rs:105-108 | a table entry reads back as present, not a page, writable, user, executable, with its address |
| `PageEntry.LeafEntryReads` | src/kernel/src/arch/x86_64/vspace/entry.rs:143-263 | a leaf entry reads back its address, size class, write, user and no-execute bits |
| `PageEntry.LeafEntryIsInjective` | src/kernel/src/arch/x86_64/vspace/entry.rs:65-90 | a leaf word determines frame, size class and every attribute but read |
| `PageEntry.LeafBits` | src/kernel/src/arch/x86_64/vspace/entry.rs:8-90 | each attribute of a leaf is at the bit the processor reads it from, for every address and attributes |
| `PageEntry.TableBits` | src/kernel/src/arch/x86_64/vspace/entry.rs:105-108 | a table entry is the address with bits 0, 1 and 2 and no other |
| `FrameMapping.SizeReads` | src/kernel/src/objects/frame.rs:125-130 | which frame size every capability word reads as, small for every value that is none |
| `FrameMapping.CacheReads` | src/kernel/src/objects/frame.rs:153-164 | which cache policy every capability word reads as, write-back for every value that is none |
| `FrameMapping.AttributesRead` | src/kernel/src/objects/vspace.rs:335-353 | rights, cache policy and user flag of a mapping are those of the capability and the caller; it is never global |
| `FrameMapping.VmRights` | src/kernel/src/objects/frame.rs:224-239 | each right is granted exactly when the capability has it |
| `FrameMapping.MapFrame` | src/kernel/src/objects/vspace.rs:335-353 | mapping a frame capability is a map of its size with its address and attributes |
| `FrameMapping.PathGrantsLeaf` | src/kernel/src/objects/vspace.rs:417-497 | rights computed along the whole path (and of writable and user, or of no-execute) are those of the leaf, because installed tables take nothing away |
| `FrameMapping.PageStaysInRun` | src/kernel/src/objects/vspace.rs:174-497 | a mapped page keeps its leaf through every later operation that does not unmap it |
| `FrameMapping.FrameRightsInAnyRun` | src/kernel/src/objects/vspace.rs:335-353 | every address of a page mapped through a frame capability has, in every later state until it is unmapped, exactly the rights of that capability and user flag |
| `FrameMapping.FrameWordInAnyRun` | src/kernel/src/objects/vspace.rs:335-353 | in every such state the walk ends at a word that holds the frame of the capability, its cache policy in bits 3 and 4, and no global bit |
| `JointRuns.RunsStaySound` | src/kernel/src/objects/endpoint.rs:148-448 | every sequence of safe sends, receives, cancellations, enqueues, wakes, timer ticks, yields and blocks over any threads and endpoints goes on without a failed `expect` and keeps the joint invariant |
| `JointRuns.StepKeepsWhen` | src/kernel/src/objects/endpoint.rs:148-448 | each single operation goes on and keeps the invariant exactly when it is safe: yielding needs room in the heap, enqueuing a thread not already ready, waking one that no queue and no callee names, rescheduling something other than the idle thread over itself; all other operations always do |
| `JointRuns.RunsAreSoundWhen` | src/kernel/src/objects/endpoint.rs:148-448 | the runs in which every operation goes on and keeps the invariant are exactly those whose operations are safe where they happen |
| `JointRuns.ScheduleKeepsWhen` | src/kernel/src/scheduler/executor.rs:179-195 | rescheduling keeps the invariant exactly when the idle thread does not run alone |
| `JointRuns.BootIsSound` | src/kernel/src/objects/endpoint.rs:26-33 | a freshly booted system satisfies the invariant |
| `IpcWake.NeverInTwoPlaces` | src/kernel/src/scheduler/executor.rs:64-195 | from boot, in every state, a thread has at most one ready entry, processor slot or queue position in all, and a ready thread is Inactive |
| `IpcWake.EndpointsAgree` | src/kernel/src/objects/endpoint.rs:160-218 | from boot, in every state, an endpoint is Idle exactly when its queue is empty, and a thread is on its queue exactly when it is blocked on that endpoint, in the way the endpoint state says |
| `JointRuns.SendMeets` | src/kernel/src/objects/endpoint.rs:183-217 | a send to a Recv endpoint always finds a receiver, so its `expect` cannot fire; the head is taken and both threads change as specified |
| `JointRuns.ReceiveMeets` | src/kernel/src/objects/endpoint.rs:254-293 | the same for a receive on a Send endpoint |
| `JointRuns.SendBlocks` | src/kernel/src/objects/endpoint.rs:161-182 | a blocking send with no receiver puts its thread last on the queue |
| `JointRuns.ReceiveBlocks` | src/kernel/src/objects/endpoint.rs:236-252 | a blocking receive with no sender does likewise |
| `JointRuns.PollingOnlyReports` | src/kernel/src/objects/endpoint.rs:160-182 | with nobody to meet, a non-blocking send changes nothing and a non-blocking receive only clears its first register |
| `JointRuns.EnqueueKeepsWhen` | src/kernel/src/scheduler/executor.rs:64-80 | `enqueue` keeps the invariant exactly when it refuses or the thread is not already ready |
| `JointRuns.WakeKeepsWhen` | src/kernel/src/scheduler/executor.rs:159-177 | `wake` keeps the invariant exactly when the thread is on no endpoint queue and no callee still records it |
| `JointCancel.CancelIpcKeeps` | src/kernel/src/objects/endpoint.rs:336-372 | cancelling any thread in any state keeps the invariant |
| `JointCancel.CancelIpcFrees` | src/kernel/src/objects/endpoint.rs:336-372 | a cancelled thread is Inactive, on no queue, waits for nothing, and no callee records it any more |
| `JointCancel.CancelAllKeeps` | src/kernel/src/objects/endpoint.rs:380-402 | every waiter ends Inactive, unlinked, waiting for nothing; the one at position i is ready exactly when the heap had more than i places left; the endpoint ends Idle and empty, and nothing else changes |
| `JointCancel.RemovedThenChanged` | src/kernel/src/objects/tcb.rs:275-300 | unlinking a waiter from any position leaves the queue without it, in order, and touches no block outside the queue |
| `JointBadged.SweepIs` | src/kernel/src/objects/endpoint.rs:419-441 | the walk that relinks the queue while following it frees exactly the senders with the badge, readies the i-th of them exactly when the heap had more than i places left, and leaves the links of the order-preserving filter |
| `JointBadged.CancelBadgedKeeps` | src/kernel/src/objects/endpoint.rs:408-448 | the whole operation keeps the invariant and leaves on the endpoint exactly the other senders, in order |
| `JointBadged.HitsMembers` | src/kernel/src/objects/endpoint.rs:424-436 | a sender is freed exactly when it was queued with the badge |
| `JointBadged.KeptMembers` | src/kernel/src/objects/endpoint.rs:424-438 | a sender is kept exactly when it was queued with another badge |
| `JointSteps.DeliveredKeeps` | src/kernel/src/objects/endpoint.rs:184-214 | a rendezvous seen from the sender keeps queues, calls and heap consistent |
| `JointSteps.CollectedKeeps` | src/kernel/src/objects/endpoint.rs:255-291 | a rendezvous seen from the receiver does |
| `JointSteps.BlockKeeps` | src/kernel/src/objects/endpoint.rs:162-181 | joining a queue does |
| `JointSteps.PreemptKeeps` | src/kernel/src/scheduler/executor.rs:119-128 | the timer keeps the invariant and its push never overflows |
| `JointSteps.ScheduleKeeps` | src/kernel/src/scheduler/executor.rs:179-195 | rescheduling keeps it, never overflows and always leaves a thread running |
| `JointSteps.YieldKeeps` | src/kernel/src/scheduler/executor.rs:130-138 | yielding keeps it unless the heap is full |
| `JointSteps.BlockCurrentKeepsWhen` | src/kernel/src/scheduler/executor.rs:140-156 | for every state: blocking goes on exactly in the four blocked ones, and keeps the invariant exactly for a notification, or for a reply from a thread that exists |
| `IpcOrder.ServedInOrder` | src/kernel/src/objects/endpoint.rs:254-276 | first come, first served over whole runs: while an earlier sender still waits, a later one never reaches the head |
| `IpcOrder.StepOrder` | src/kernel/src/objects/endpoint.rs:148-448 | every operation preserves the order of those who stay on a queue |
| `IpcOrder.FrozenWhileQueued` | src/kernel/src/objects/endpoint.rs:162-181 | through any run in which a thread stays queued, its registers and saved message details do not change |
| `IpcOrder.QueuedIsFrozen` | src/kernel/src/objects/endpoint.rs:148-448 | no single operation writes them |
| `IpcOrder.BlockedSender` | src/kernel/src/objects/endpoint.rs:162-181 | a send that blocks saves its badge, both grant rights and whether it is a call, field by field, joins the end of the queue and leaves the registers alone |
| `IpcOrder.ReceivedRegisters` | src/kernel/src/objects/endpoint.rs:256-276 | a receive serves the head and gets its registers 0 to 3, keeping its own others |
| `IpcOrder.DeliveredRegisters` | src/kernel/src/objects/endpoint.rs:184-195 | a send that meets a receiver serves the head of the queue and hands it registers 0 to 3 |
| `IpcOrder.MessageIsAsSent` | src/kernel/src/objects/endpoint.rs:116-135 | end to end: whatever happens in between, the receiver gets the four registers the sender had when it called |
| `IpcOrder.ReachedIsFull` | src/kernel/src/arch/x86_64/trapframe.rs:5-11 | from boot, in every state, every thread has its fifteen registers, as the above asks |
| `IpcFates.FreedExactlyByItsBadge` | src/kernel/src/objects/endpoint.rs:408-448 | a sender that blocked with some badge and still waits after any run is freed by cancelling a badge on its endpoint exactly when it is that badge; otherwise it stays queued and blocked |
| `IpcFates.AwaitsReplyExactlyWhen` | src/kernel/src/objects/endpoint.rs:256-295 | when such a sender is received, it awaits the receiver and is recorded as its caller exactly when it called with one of the two grant rights; otherwise it is Inactive and the receiver has the caller it had |
| `IpcFates.MeetingSender` | src/kernel/src/objects/endpoint.rs:184-218 | a send that meets a receiver: a plain send goes on running, a call with one of the grant rights awaits the receiver and is recorded as its caller, a call without is left Inactive |
| `IpcFates.QueuedSender` | src/kernel/src/objects/endpoint.rs:162-181 | however long it waits, its block holds the registers, badge, rights and call flag it sent with, and it is blocked on its endpoint |
| `IpcFates.StaysSender` | src/kernel/src/objects/endpoint.rs:148-448 | an endpoint does not change from senders to receivers while anyone stays on its queue, in any run |
| `IpcFates.StepSide` | src/kernel/src/objects/endpoint.rs:148-448 | no operation turns a queue of senders into one of receivers, or the other way round |
| `Ipc.TransferIs` | src/kernel/src/objects/endpoint.rs:116-135 | the receiver ends with the sender's registers 0 to 3, so the badge written first is lost |
| `IpcCalls.CallerIsUnique` | src/kernel/src/objects/endpoint.rs:301-316 | in every run a recorded caller is waiting for that thread's reply, so nobody is recorded by two |
| `IpcCalls.StepRemembersWhen` | src/kernel/src/objects/endpoint.rs:199-206 | the converse survives an operation exactly when it does not set up a call to a thread that already has a caller |
| `IpcCalls.RunsRemember` | src/kernel/src/objects/endpoint.rs:279-290 | in runs without such an operation, everyone awaiting a reply is recorded by the thread it awaits |
| `IpcCalls.RepliesAgree` | src/kernel/src/objects/endpoint.rs:301-316 | from boot, in runs without such an operation: x records y as its caller exactly when y awaits the reply of x |
| `SecondCall.SecondCallForgetsFirst` | src/kernel/src/objects/endpoint.rs:301-316 | a run from boot, of ten legal operations, after which a waiting caller is recorded by nobody |
| `IpcWake.StrandedWhen` | src/kernel/src/objects/endpoint.rs:148-448 | for every operation and thread, exactly when the thread ends stranded, that is Inactive and neither ready, running, queued nor idle |
| `IpcWake.ReceiverIsStranded` | src/kernel/src/objects/endpoint.rs:208-214 | the receiver a send meets always is, because `wake` refuses it |
| `IpcWake.SenderIsStranded` | src/kernel/src/objects/endpoint.rs:284-290 | the sender a receive meets is exactly when it does not now await a reply |
| `IpcWake.CancelAllRestarts` | src/kernel/src/objects/endpoint.rs:387-399 | the waiter at position i is ready exactly when the heap had more than i places left, and stranded otherwise |
| `IpcWake.CancelBadgedRestarts` | src/kernel/src/objects/endpoint.rs:424-436 | the same for the i-th sender with the badge |
| `IpcWake.StrandedForever` | src/kernel/src/scheduler/executor.rs:159-177 | in every run, a stranded thread stays so until someone enqueues that very thread |
| `IpcRepair.RepairedRunsLoseNobody` | src/kernel/src/objects/endpoint.rs:208-214 | with `enqueue` in place of that `wake`: every run stays sound, and a thread that no operation strands is never stranded |
| `IpcRepair.RepairedStrandedWhen` | src/kernel/src/objects/endpoint.rs:284-290 | with that repair, exactly when an operation leaves a thread stranded |
| `IpcRepair.StillStrandsOnly` | src/kernel/src/objects/endpoint.rs:199-206 | what then remains: being cancelled, a call that allows no reply, and a full heap |
| `IpcRepair.PartnerIsPlaced` | src/kernel/src/objects/endpoint.rs:208-214 | with that repair and room in the heap, the partner of a rendezvous ends ready or running |
| `Threads.AppendIs` | src/kernel/src/objects/tcb.rs:227-244 | appending to a well-linked queue adds at the end and touches no block outside |
| `Threads.DequeueIs` | src/kernel/src/objects/tcb.rs:250-269 | dequeuing takes the first, unlinks it and touches no block outside |
| `Threads.RemoveIs` | src/kernel/src/objects/tcb.rs:275-300 | removing takes out the thread at any position and touches no block outside |
| `Scheduler.PreemptIsEdf` | src/kernel/src/scheduler/executor.rs:119-128 | the timer switches exactly when some ready deadline is strictly earlier, then to the least entry; afterwards none is earlier than the running one, and the push never overflows |
| `Scheduler.LeastMeans` | src/kernel/src/scheduler/executor.rs:15-19 | what the heap gives up first: the earliest deadline, and among equals the lowest thread |
| `Scheduler.PreemptConserves` | src/kernel/src/scheduler/executor.rs:91-128 | the timer neither loses nor makes an entry: heap and processor slot together stay the same multiset |
| `Scheduler.YieldConserves` | src/kernel/src/scheduler/executor.rs:130-138 | nor does yielding |
| `Scheduler.ScheduleIsEdf` | src/kernel/src/scheduler/executor.rs:179-195 | in any state the least ready entry runs, with none the idle thread, with neither the core halts; the running entry is then the earliest exactly when a thread that goes back to the heap is not earlier than it |
| `Scheduler.BlockIsEdf` | src/kernel/src/scheduler/executor.rs:140-156 | after blocking the least ready entry runs, with none the idle thread, and it is the earliest; a state that does not block is refused |
| `Scheduler.ScheduleIdlesWhen` | src/kernel/src/scheduler/executor.rs:179-195 | scheduling leaves the idle thread running with another entry ready exactly when the next entry is its own and something else is ready or goes back to the heap |
| `Scheduler.PreemptIdlesWhen` | src/kernel/src/scheduler/executor.rs:83-128 | the same for the timer, which also leaves it running when no ready deadline is strictly earlier |
| `Scheduler.YieldIdlesWhen` | src/kernel/src/scheduler/executor.rs:130-138 | the same for a yield, over the ready entries and the yielder |
| `Scheduler.BlockIdlesWhen` | src/kernel/src/scheduler/executor.rs:140-156 | the same for blocking |
| `IdleExample.IdleRunsAmidReady` | src/kernel/src/scheduler/executor.rs:83-89 | two runs from boot, one with the timer and one with a yield, that leave the idle thread running while another is ready |
| `Edf.IdleOnlyAtTheEnd` | src/kernel/src/scheduler/executor.rs:119-195 | from boot, with an idle thread without deadline: whenever the timer, a yield or a block leaves it running, every ready entry is as late as can be, so nothing is ready if every other thread has a real deadline |
| `Edf.EarliestFirstWhen` | src/kernel/src/scheduler/executor.rs:64-195 | for every operation of the joint system, exactly when no ready entry is earlier than the running one afterwards |
| `Edf.SendEarliest` | src/kernel/src/objects/endpoint.rs:180 | a send that stops its own thread is followed by the next entry, and any other changes nobody's turn |
| `Edf.ReceiveEarliest` | src/kernel/src/objects/endpoint.rs:248 | so it is with a receive |
| `Edf.StepCarries` | src/kernel/src/scheduler/executor.rs:53-61 | no operation changes a deadline or the number of registers, and every entry, ready or running, keeps the deadline of its thread |
| `Edf.RunCarries` | src/kernel/src/scheduler/executor.rs:53-61 | nor does any run |
| `Edf.EnqueueEntersAt` | src/kernel/src/scheduler/executor.rs:53-80 | an enqueue succeeds exactly for an Inactive thread with fewer than 64 ready, and enters it at its own deadline, or at 2^64 - 1 if it has none |
| `Edf.WakeEntersAt` | src/kernel/src/scheduler/executor.rs:159-177 | a wake succeeds exactly for a thread in one of the four blocked states with fewer than 64 ready, and enters it likewise; a full heap leaves it Inactive |
| `Edf.EntriesStandAtDeadlines` | src/kernel/src/scheduler/executor.rs:53-61 | from boot, in every state, each entry ready or running stands at the deadline its thread was given |
| `Edf.NobodyEarlierIsReady` | src/kernel/src/scheduler/executor.rs:119-156 | from boot, after the timer, a yield or a block, no ready thread was given an earlier deadline than the running one |
| `Scheduler.YieldIsEdf` | src/kernel/src/scheduler/executor.rs:130-138 | the earliest of all, the yielder included, runs; the push overflows exactly when 64 entries are ready |
| `Scheduler.EnqueueTwiceDuplicates` | src/kernel/src/scheduler/executor.rs:64-80 | enqueuing an Inactive thread twice adds it twice |
| `Machine.Machine.Append` | src/kernel/src/objects/tcb.rs:227-244 | the pointer code equals its specification |
| `Machine.Machine.DequeueHead` | src/kernel/src/objects/tcb.rs:250-269 | the pointer code equals its specification |
| `Machine.Machine.RemoveFrom` | src/kernel/src/objects/tcb.rs:275-300 | the pointer code equals its specification |
| `Machine.Machine.PeekLeast` | src/kernel/src/scheduler/executor.rs:84-85 | the heap's head is the unique least entry by deadline and then thread |
| `Machine.Machine.ContextSwitch` | src/kernel/src/scheduler/executor.rs:91-105 | the code equals its specification; it fails exactly when the push overflows |
| `Machine.Machine.Preempt` | src/kernel/src/scheduler/executor.rs:119-128 | the code equals its specification |
| `Machine.Machine.Schedule` | src/kernel/src/scheduler/executor.rs:179-195 | the code equals its specification |
| `Machine.Machine.YieldCurrent` | src/kernel/src/scheduler/executor.rs:130-138 | the code equals its specification; it fails exactly when the push overflows |
| `Machine.Machine.BlockCurrent` | src/kernel/src/scheduler/executor.rs:140-156 | the code equals its specification; it fails exactly on a state that does not block |
| `Machine.Machine.Enqueue` | src/kernel/src/scheduler/executor.rs:64-80 | the code equals its specification, error included; on success exactly one entry joins, at the deadline in the thread's block or 2^64 - 1 |
| `Machine.Machine.Wake` | src/kernel/src/scheduler/executor.rs:159-177 | the code equals its specification, error included |
| `Machine.Machine.DoIpcTransfer` | src/kernel/src/objects/endpoint.rs:116-135 | the badge write and the copy loop, in that order, give the specified registers, also when a thread sends to itself |
| `Machine.Machine.SetupCallerCap` | src/kernel/src/objects/endpoint.rs:301-316 | the code equals its specification |
| `Machine.Machine.BlockSender` | src/kernel/src/objects/endpoint.rs:162-181 | the blocking part of the code equals its specification and saves each argument in its own field |
| `Machine.Machine.SendIpc` | src/kernel/src/objects/endpoint.rs:148-219 | the code equals its specification; it fails exactly at the `expect` |
| `Machine.Machine.ReceiveIpc` | src/kernel/src/objects/endpoint.rs:225-295 | the code equals its specification; it fails exactly at the `expect` |
| `Machine.Machine.CancelIpc` | src/kernel/src/objects/endpoint.rs:336-372 | the code equals its specification |
| `Machine.Machine.CancelAllIpc` | src/kernel/src/objects/endpoint.rs:380-402 | the loop ends, after one turn per queued thread, in the specified state |
| `Machine.Machine.CancelBadgedSends` | src/kernel/src/objects/endpoint.rs:408-448 | the loop that relinks while it follows pointers ends and equals the walk over the old queue |
| `Machine.Machine.SendCall` | src/kernel/src/objects/endpoint.rs:148-219 | the send system call refines its step of a run, keeps the invariant and never fails |
| `Machine.Machine.ReceiveCall` | src/kernel/src/objects/endpoint.rs:225-295 | the receive system call does |
| `Machine.Machine.CancelThread` | src/kernel/src/objects/endpoint.rs:336-372 | so does cancelling a thread |
| `Machine.Machine.CancelEndpoint` | src/kernel/src/objects/endpoint.rs:380-402 | so does cancelling an endpoint |
| `Machine.Machine.CancelBadge` | src/kernel/src/objects/endpoint.rs:408-448 | so does cancelling by badge |
| `Machine.Machine.Yield` | src/kernel/src/scheduler/executor.rs:130-138 | so does a yield |
| `Machine.Machine.AwaitNotification` | src/kernel/src/scheduler/executor.rs:140-156 | so does blocking on a notification |
| `Machine.Machine.RunNext` | src/kernel/src/scheduler/executor.rs:179-199 | so does rescheduling |
| `Machine.Machine.EnqueueThread` | src/kernel/src/scheduler/executor.rs:64-80 | so does an enqueue, with its result |
| `Machine.Machine.WakeThread` | src/kernel/src/scheduler/executor.rs:159-177 | so does a wake, with its result |
| `Machine.Machine.Timer` | src/kernel/src/scheduler/executor.rs:119-128 | so does the timer |
| `Database.RunsStayFaithful` | src/kernel/src/objects/cnode.rs:122-243 | in every run of insert, remove and revoke over any slots, each chain lists in preorder exactly the derivation forest recorded beside it, and no slot is lost |
| `Database.RevokeInAnyRun` | src/kernel/src/objects/cnode.rs:211-243 | in every such state, revoking a slot erases everything recorded as derived from it, in any number of steps, and nothing it was derived from |
| `Database.RevokeReach` | src/kernel/src/objects/cnode.rs:211-243 | one revoke erases every transitive derivative and no ancestor, nor the slot itself |
| `Database.RevokeIsExactWhen` | src/kernel/src/objects/cnode.rs:211-243 | it erases nothing else exactly when the last slot of the chain is the slot itself or derived from it |
| `Database.RevokeErasesSiblings` | src/kernel/src/objects/cnode.rs:211-243 | two children of one root, for any slots: revoking the first erases the second |
| `Database.InsertDerives` | src/kernel/src/objects/cnode.rs:122-158 | inserting adds exactly one derivation |
| `Database.RemovePromotes` | src/kernel/src/objects/cnode.rs:165-200 | removing hands the children to the parent and changes no other derivation |
| `Database.RevokeDrops` | src/kernel/src/objects/cnode.rs:211-243 | revoking keeps every derivation among the slots not erased |
| `Database.ApplyKeeps` | src/kernel/src/objects/cnode.rs:122-243 | each operation keeps chains and record in agreement |
| `Database.InsertKeeps` | src/kernel/src/objects/cnode.rs:122-158 | inserting keeps all chains disjoint and duplicate free |
| `Database.RemoveKeeps` | src/kernel/src/objects/cnode.rs:165-200 | removing keeps all chains disjoint and duplicate free |
| `Database.RevokeKeeps` | src/kernel/src/objects/cnode.rs:211-243 | revoking keeps all chains disjoint and duplicate free |
| `Derivation.Listing` | src/kernel/src/objects/cnode.rs:122-243 | on preorder listings, deriving inserts right after the source, removing deletes, cutting truncates |
| `Derivation.DescendantsAreContiguous` | src/kernel/src/objects/cnode.rs:211-243 | the descendants of an entry are one unbroken stretch right after it |
| `Derivation.DescendantsComeLater` | src/kernel/src/objects/cnode.rs:211-243 | descendants are listed after their ancestor |
| `Derivation.PromoteRelation` | src/kernel/src/objects/cnode.rs:165-200 | what removing does to the parent relation, as an equivalence |
| `Derivation.DeriveRelation` | src/kernel/src/objects/cnode.rs:122-158 | what inserting does to it |
| `Derivation.CutRelation` | src/kernel/src/objects/cnode.rs:211-243 | what truncating does to it |
| `Mdb.CNodeEntry.MdbInsertAfter` | src/kernel/src/objects/cnode.rs:122-158 | the link updates turn chain p, src, q into p, src, dst, q; with src and dst the same slot they make a self loop |
| `Mdb.CNodeEntry.MdbRemove` | src/kernel/src/objects/cnode.rs:165-200 | the link updates turn p, x, q into p, q and isolate x |
| `Mdb.CNodeEntry.Revoke` | src/kernel/src/objects/cnode.rs:211-243 | the loop ends, erases and isolates every slot after this one and keeps the prefix linked |
| `Mdb.CNodeEntry.constructor` | src/kernel/src/objects/cnode.rs:68-84 | a new slot is null and isolated |
| `Mdb.MappingDatabase.InsertAfter` | src/kernel/src/objects/cnode.rs:122-158 | on all slots at once, the code refines the database insert and every chain stays well linked |
| `Mdb.MappingDatabase.Remove` | src/kernel/src/objects/cnode.rs:165-200 | the code refines the database remove |
| `Mdb.MappingDatabase.Revoke` | src/kernel/src/objects/cnode.rs:211-243 | the code refines the database revoke; erased slots are null, every other capability keeps its payload |
| `RetypeTree.CallsKeepTree` | src/kernel/src/objects/untyped.rs:97-191 | every sequence of retype calls on any nodes of a tree rooted in one untyped of at most 57 bits keeps children inside parents, siblings disjoint and watermarks inside regions |
| `RetypeTree.NestedOrDisjoint` | src/kernel/src/objects/untyped.rs:97-191 | any two capabilities anywhere in such a tree name disjoint memory unless one was carved from the other |
| `RetypeTree.DescendantsLieWithin` | src/kernel/src/objects/untyped.rs:97-191 | every descendant lies within its ancestor, and frames and untypeds inherit device status |
| `RetypeTree.EverythingIsAligned` | src/kernel/src/objects/untyped.rs:52-94 | from a naturally aligned root every object ever made is aligned to its size, which is what the mint assertions demand |
| `RetypeTree.ObjectIsAligned` | src/kernel/src/objects/frame.rs:80-83 | one call on an aligned region makes aligned objects |
| `RetypeTree.WatermarksOnlyRise` | src/kernel/src/objects/untyped.rs:37-45 | watermarks never fall and never pass the region size, whatever calls follow |
| `RetypeTree.RetypeGrows` | src/kernel/src/objects/untyped.rs:118-190 | each successful call carves objects in order between the old and the new watermark |
| `RetypeTree.WatermarkMoves` | src/kernel/src/objects/untyped.rs:189 | the stored watermark is the end of the last object |
| `RetypeTree.Minted` | src/kernel/src/objects/untyped.rs:133-184 | each minted capability has the requested type and size, and its parent's device status |
| `RetypeTree.WatermarkIsTrueWhen` | src/kernel/src/objects/untyped.rs:41-45 | for every capability, the stored watermark is the true one exactly when that is below 2^58 |
| `RetypeTree.FullRegionIsHandedOutTwice` | src/kernel/src/objects/untyped.rs:97-191 | filling a 2^58-byte region leaves its capability as it was, so the same call succeeds again with the same capabilities |
| `RetypeTree.FullRegionExample` | src/kernel/src/objects/untyped.rs:67-94 | 1024 objects of 2^48 bytes are such a call |
| `RetypeTree.ClearedIsFree` | src/kernel/src/objects/untyped.rs:139-173 | memory is cleared only inside the region and above the watermark, also when the call then fails |
| `RetypedPages.NewVSpaceIsFresh` | src/kernel/src/objects/untyped.rs:168-182 | for every successful call from an aligned region: with the memory reported as cleared really zero, each new VSpace is an empty PML4 and a fresh frame for every address space it is no table of |
| `RetypedPages.RetypedFrameReads` | src/kernel/src/objects/frame.rs:70-164 | every frame made reads back as the size asked for, in bits and in bytes, readable and writable, uncached exactly when the region is a device |
| `RetypedPages.RetypedFrameIsAccepted` | src/kernel/src/objects/frame.rs:51-55 | mapping a frame made from an aligned region is never refused for the alignment of the frame |
| `RetypeTree.RetypeOutcomes` | src/kernel/src/objects/untyped.rs:97-191 | for every capability and request, the exact condition of success, of each error and of the panic, from the type, the size, the region and the number of objects |
| `RetypeTree.SizesAre` | src/kernel/src/objects/untyped.rs:52-94 | for every type and bit size, whether there is such an object, its size and its alignment |
| `Untyped.MintedWords` | src/kernel/src/objects/untyped.rs:133-184 | the words of every new untyped, frame and VSpace capability; a VSpace never gets address-space number zero |
| `CNode.MintReadsBack` | src/kernel/src/objects/cnode.rs:358-395 | for every pair of widths, a mint succeeds exactly when both, cut to six bits, fit the depth together, and then both read back |
| `CNode.MintIsInjective` | src/kernel/src/objects/cnode.rs:358-395 | two mints give one capability exactly when they agree on address, guard and both cut widths |
| `Untyped.CNodeMintFailsWhen` | src/kernel/src/objects/untyped.rs:139-156 | with the widths `retype` passes, the mint fails its assertion exactly for CNodes of more than one slot |
| `RetypeTree.RetypePanicsWhen` | src/kernel/src/objects/untyped.rs:97-191 | for every call, exactly when it panics: on an address out of range, or on the first CNode of more than one slot |
| `RetypeTree.RetypedCNodesResolveNothing` | src/kernel/src/objects/untyped.rs:139-157 | the CNodes it does make have one slot and resolve no address bits |
| `Untyped.Retype` | src/kernel/src/objects/untyped.rs:97-191 | the scan, the checks, the writing loop and the watermark update equal the specification; on any error or panic no capability has changed; after success the memory cleared is, address and size, exactly that of the new CNodes or VSpaces, and none for frames and untypeds |
| `Untyped.WriteSlots` | src/kernel/src/objects/untyped.rs:130-187 | the loop fills every slot with the batch, or stops at its first turn having written nothing; every CNode and VSpace it makes is cleared, and nothing else |
| `Untyped.ScanSlots` | src/kernel/src/objects/untyped.rs:103-105 | the scan succeeds exactly when every slot is null |
| `Untyped.PackingIsExactWhen` | src/kernel/src/objects/untyped.rs:29-45 | the packed watermark reads back exactly when it is below 2^58; the bit size always does |
| `Untyped.AlignUpIsLeast` | src/kernel/src/macros.rs:25-29 | the least multiple of the alignment at or above the offset |
| `Untyped.SizeIsAlignment` | src/kernel/src/objects/untyped.rs:52-94 | every object is as large as it is aligned |
| `CSpace.ResolutionEndsWhen` | src/kernel/src/cspace.rs:84-149 | on every capability graph, cyclic or not: resolution ends exactly when it never comes, with bits left, to a chain of CNodes that for ever resolve no bits |
| `CSpace.EndsOrTrips` | src/kernel/src/cspace.rs:91-101 | on every graph, within one turn per address bit the walk has ended or stands on a CNode that trips the assertion that a node resolves bits |
| `CSpace.ZeroBitNodeNeverResolves` | src/kernel/src/cspace.rs:91-148 | an input that does not end: a CNode that resolves no bits, in its own first slot |
| `CSpace.ResolveInternal` | src/kernel/src/cspace.rs:84-149 | the loop ends in every memory where resolution ends at all, with the specified result |
| `CSpace.ResolveTurn` | src/kernel/src/cspace.rs:91-148 | one turn of the code, with its checks in order, is the specified step |
| `CSpace.ResolveMeansPath` | src/kernel/src/cspace.rs:84-149 | in every memory, resolution ends with no bits left exactly when the address is guard and index along a chain of CNodes whose last one resolves bits, and then at its slot |
| `CSpace.LookupMeansPath` | src/kernel/src/cspace.rs:55-71 | in every memory, a lookup gives a slot exactly when the low bits of the address spell such a path to it |
| `CSpace.EncodeThenLookup` | src/kernel/src/cspace.rs:55-71 | in every memory, writing such a path down as an address and looking it up gives its slot back |
| `CSpace.AddressesAreUnambiguous` | src/kernel/src/cspace.rs:84-149 | in every memory, no two such paths share an address |
| `CSpace.LookupErrors` | src/kernel/src/cspace.rs:55-71 | for every input, whether a lookup returns and which error it reports; the empty-slot error never occurs |
| `CSpace.LookupInOneNode` | src/kernel/src/cspace.rs:84-149 | an address resolved in one node: the slot 64 bytes times the index into it if the guard is right, and a lookup error otherwise |
| `OnceLock.RunKeepsInv` | src/kernel/src/scheduler/sync.rs:56-144 | every interleaving of any threads calling set, get and get_or_init, with initialisers that may panic, keeps the protocol invariant |
| `OnceLock.MutualExclusion` | src/kernel/src/scheduler/sync.rs:65-90 | at most one thread is in the initialising section |
| `OnceLock.InitializedIsPermanent` | src/kernel/src/scheduler/sync.rs:86-87 | once initialised, always initialised with the same value |
| `OnceLock.ReadersAgree` | src/kernel/src/scheduler/sync.rs:56-144 | all values read, set and written are the same; the value is written and an initialiser completes at most once; no unwrap fails; nothing reports absence afterwards |
| `OnceLock.InitialiserResultIsKept` | src/kernel/src/scheduler/sync.rs:80-89 | if an initialiser completed, readers see what it returned |
| `OnceLock.RefusedOnlyWhen` | src/kernel/src/scheduler/sync.rs:105-144 | in every interleaving a `set` fails only at a moment when the value is published or another thread holds the guard, and a `get` reports None only before the value is published |
| `OnceLock.SetAloneStores` | src/kernel/src/scheduler/sync.rs:105-131 | undisturbed, `set` on an uninitialised cell stores its value, publishes it and succeeds |
| `OnceLock.SetAloneFails` | src/kernel/src/scheduler/sync.rs:105-117 | and in any other state it fails and changes nothing |
| `OnceLock.InitialiserIsReached` | src/kernel/src/scheduler/sync.rs:60-80 | undisturbed, `get_or_init` on an uninitialised cell claims the word and runs its initialiser |
| `OnceLock.InitialiserResultIsReturned` | src/kernel/src/scheduler/sync.rs:80-89 | what that returns is stored, published and handed to the caller |
| `OnceLock.PanicLeavesNoTrace` | src/kernel/src/scheduler/sync.rs:75-80 | if it panics, the word is uninitialised again and the value untouched |
| `OnceLock.InitializedIsGot` | src/kernel/src/scheduler/sync.rs:138-144 | on an initialised cell `get` returns the stored value |
| `OnceLock.InitializedIsNotRunAgain` | src/kernel/src/scheduler/sync.rs:60-63 | so does `get_or_init`, without running an initialiser |
| `OnceLock.EarlyGetIsNone` | src/kernel/src/scheduler/sync.rs:138-144 | before that `get` reports None |
| `OnceLock.WaiterReturns` | src/kernel/src/scheduler/sync.rs:92-98 | a caller that lost the exchange returns the published value |
| `OnceLock.WaiterTakesOver` | src/kernel/src/scheduler/sync.rs:92-101 | or, if the word is uninitialised again, claims it and runs its own initialiser |

## Left out

- Processor and device access: context restore is "next becomes current", TLB flushes do not touch table memory.
- System-call dispatch, boot code, console, logging and tick calibration: no object logic is reached from them.
- `inc_tick` and the budget fields of scheduling contexts: counters nothing else reads.
- The inside of the binary heap: its bounded multiset contract is used instead.
- Several cores and per-core cells: one core is modelled.
- JointRuns.RunsStaySound: a yield with 64 ready entries, a wake of a thread some queue or callee still names, an enqueue of a ready thread and a reschedule of the idle thread over itself are excluded; `RunsAreSoundWhen` shows that exactly these break soundness.
- Weak memory ordering in the one-time cell, and fairness of its spin loop: steps are sequentially consistent, and progress is stated for calls nobody disturbs.
- The time before the scheduler is initialised, when a rendezvous leaves its partner Running: the executor is taken to exist.
- Blocking on a notification is the only blocking that is an operation of its own in runs; the other blocked states are entered by the IPC calls.
- Capability transfer by grant, notifications and reply delivery: absent from the code or marked as still to do.
- Identification calls, badge minting of endpoint capabilities, `set_mapped` and `set_active`: plain field accesses.
- Machine.Machine.CancelAllIpc: queue blocks are records in a table, so aliasing of thread memory with other kernel memory is not captured.
- PageTableRuns.RunsStaySound: one address space; sharing of tables between two is excluded by the demand that installed frames are unshared.
