# Live migration, verified

A Dafny model of how Drafter moves a running Firecracker VM from one peer to another, with proofs about every
interleaving of that protocol and about the memory, agent, network and package code around it.
`dafny verify dfyconfig.toml` checks everything.

## The handover

`DirtyManager` and `VMStateMgr` decide when the VM stops and when authority passes. One thread per device calls
`PreGetDirty`, `PostGetDirty` and `PostMigrateDirty` in a loop; the threads share two maps, four mutexes and two
one-shot channels.

- `Handover.dfy` holds the values of the protocol and what each hook does to them when nothing interferes.
- `VMState.dfy` and `DirtyManagement.dfy` are the classes, each method proved against those functions; `VMState.dfy`
  also has the trace of suspend callbacks over any sequence of calls.
- `HandoverSystem.dfy` is the concurrent system: a program counter per device thread, the four mutexes, the guest
  writing at any time while the VM runs, pages not yet written back, the dirty set, the fetched list, announced copies and
  copies on the wire. A run is any interleaving of these.
- `HandoverSolo.dfy` shows that a hook run without interference in that system does what the class method does.
- `HandoverInvariants.dfy` is the invariant of all runs, by rely and guarantee; `HandoverTheorems.dfy` draws the results
  from it: the destination's image, authority once, the full pass after the suspend, dead branches, no deadlock.
- `HandoverImage.dfy` says what that image is, from the actions of the run alone: at every block what the guest wrote there
  last.
- `HandoverPasses.dfy` says what the answers of the hooks mean and follows one device from step to step: what its fetches
  follow, that it announces and counts the list it fetched, and where a pass that finds nothing ends.
- `HandoverTrace.dfy` adds the callbacks of a run: one attempt to suspend, a failed callback never followed by a transfer.
- `Convergence.dfy` says which dirty counts make a device ready, bounds its cycles and ends the whole phase under
  round-robin passes.
- `HandoverCounts.dfy` shows that in every interleaving a device's counters are those of `Convergence.dfy`, so that its own
  lists alone decide when it is ready.
- `HandoverErrors.dfy` shows that a loop ends with an error exactly if one of its own calls has failed.
- `HandoverLiveness.dfy` has the same bound in every interleaving, and ends the phase in every fair one without errors;
  after a failed suspend it never ends.
- `HandoverCompletion.dfy` shows that none of this is empty: from every initial state some run ends all loops, transfers
  authority and leaves the destination with the guest's image. It steps the round-robin passes of `Convergence.dfy`
  through the concurrent system, hook by hook.
- `Migration.dfy` follows one migration past the return of `MigrateTo`, when its unfinished loops go on and the user may
  resume the VM under them.
- `PeerTree.dfy` lets peers migrate their VM away any number of times, to a destination of its own each time, and be
  resumed in between. Each migration is a whole handover system, whose loops may outlive its call. At most one peer runs
  the VM under one rule for the users, and the rule is exact.
- `PeerRuns.dfy` says from the events of such a history alone which peers run the VM.
- `Chains.dfy` has the induction along runs that these files share.

### What the environment is assumed to do

The driver (`dg.MigrateDirty`, called at `pkg/common/migrations.go:537`) and the block layer are Silo's and not part of
this model. Their assumed behaviour is written once, at the head of `HandoverSystem.dfy`:

- a pass calls `PreGetDirty`, fetches the dirty blocks, calls `PostGetDirty`, announces the list to the destination and
  calls `PostMigrateDirty`, in that order (as `pkg/common/dirty_manager_test.go:65-102` does);
- a `false` from `PreGetDirty` means that the pass fetches nothing; a `false` from a later hook ends that device's loop;
- announcing the list, or copying what it lists, may fail, which is an error of the device;
- after an error a device does no more, while the other devices may go on, and the migration returns the error;
- a fetch returns every dirty block and clears the set; a write to a device and its dirty mark are one step;
- announced blocks are copied later in any order, one copy of a block at a time, each reading the source when it is sent;
- a block of a device may be marked dirty without having changed, as long as the machine is not stopped and flushed;
- part of a changed page of the memory device may reach the device, marked dirty, before the rest;
- readers of the memory device see a guest write at once or only when its page is written back: the first when they read
  the process (direct memory), the second when they read the device;
- the dirty phase starts after the first full copy, with everything the destination lacks dirty, not yet written back, or
  on its way;
- device names are the keys of `Devices`, and there is at least one;
- a successful suspend has stopped the guest, a successful msync after it has written back and marked every page, and a
  failed suspend may or may not have stopped the guest.

For the memory device the last point is the work of the grabs in `Suspend`, and `GrabIsFlush.dfy` proves it of them, in
each mode in which it holds (see "What the code does not promise" for the one in which it does not). The users of a peer
are assumed to make one call at a time, and to resume a peer only after its `MigrateFrom` has returned; `MigrateTo` returns
when one of its device loops has failed or all have ended.

## Guest memory

- `MemoryImage.dfy`: mapped regions, the image a provider has when they are copied into it, and dirty trackers.
- `MemoryGrab.dfy`: the full comparison and the soft-dirty grab as methods on the same arrays. In the second the guest
  writes at any point, between any two bytes copied. Both leave the same provider once the guest has stopped.
- `DirectMemory.dfy`: the dirty list seeded by `Resume`, what keeps it complete, and the writeback of `FlushDevices`.
- `MemoryLifecycle.dfy`: whole runs from the first grab to the last one in `Suspend`, in either mode, with the provider and
  the writeback tracker, which nobody reads before the flush.
- `DirectTransfer.dfy`: the trackers that a migration fetches between grabs, in soft-dirty mode: guest writes, the steps of
  grabs, fetches and late reads interleave freely and the receiver ends up with guest memory.
- `FailsafeTransfer.dfy`: the same trackers when grabs compare: which schedules of grabs, fetches and reads are right
  whatever the guest does.
- `GrabIsFlush.dfy`: a grab of the stopped machine is the flush the handover assumes, and every run of `DirectTransfer.dfy`
  is a run of the memory device of `HandoverSystem.dfy`.
- `CopyTransfer.dfy`: the same for soft-dirty grabs that copy to the device byte by byte while the guest runs.

## The rest

- `Mailbox.dfy`: the one-slot channel through which the agent's remote is passed.
- `PortForwarding.dfy`: concurrent set-up of iptables rules, collected undo lists, one `Close`.
- `PortRules.dfy`: what those rules do to packets while they are there, read from their text.
- `Package.dfy`: archiving devices and extracting them in one pass.
- `SnapshotConfig.dfy`: the padding of snapshot files and the trimming of the config.

## What the code does not promise

- `MaxCycles` is not always a bound on the number of counted cycles. It is one exactly if it is positive and `MinCycles` is
  not positive or no count can be below the threshold (`Convergence.MaxCyclesSuffice`). The bound that always holds is
  `max(MaxCycles, 1) + max(MinCycles, 0)`, and it is tight (`Convergence.BoundIsTight`).
- Direct memory with `GrabFailsafe` can lose a write. The comparison is with a provider that this mode never updates, so a
  byte that was fetched and sent, and that the guest then sets back, is not found again
  (`FailsafeTransfer.RestoredByteIsLost`). The receiver is right for every guest exactly if no byte is read, before the
  last grab, after a fetch that came after a grab or found it dirty from the start, and the dirty marks are on or every
  byte is dirty from the start; copying to the provider as well does not help
  (`FailsafeTransfer.RightExactlyWhenNothingIsLost`). Soft-dirty grabs serve every schedule
  (`DirectTransfer.ReceiverHoldsMemory`).
- Migrating a peer away again, or resuming it, after one of its migrations has handed the VM over can make two peers run
  it: the new migration starts with a fresh `VMStateMgr` (`pkg/peer/peer.go:454`) and `Suspend` of a stopped VM succeeds
  (`pkg/runtimes/firecracker/runtime.go:404-409`). `PeerTree.TwoDestinations` is such a run. Without those two calls at
  most one peer runs the VM (`PeerTree.AtMostOneRuns`), and while another peer runs it each of them leads to two exactly
  when this peer has handed it over (`PeerTree.ResumeIsExact`, `PeerTree.MigrateIsExact`). A `MigrateTo` that returned
  without an error has handed it over (`PeerTree.SuccessHandsOver`); one that returned an error has exactly if that is
  the error of the transfer (`PeerTree.ErrorDecides`).
- A migration whose suspend failed does not end by itself: the other device loops go on until each has an error of its own
  (`HandoverLiveness.FailedSuspendNeverEnds`), also after `MigrateTo` has returned.
- `GetRemote` can return a remote older than one already published: the consumer takes remote 1, connection 2 is
  published and ends, and the consumer then puts remote 1 back and returns it (`Mailbox.OlderRemoteReturned`). It cannot
  while the newer connection is still published (`Mailbox.PublishedIsReachable`), and all calls of a run return the latest
  remote exactly when no connection is published between a take and the put-back that follows it
  (`Mailbox.FreshExactlyWhenQuiet`).
- A config without any zero byte after it is read as the empty config, not as itself (`SnapshotConfig.TrimConfig`); the
  padding is what makes reading it back work.

## Model

| member | source | states |
|---|---|---|
| `HandoverInvariants.ThreadKeepsControl` | pkg/common/dirty_manager.go:48-193 | every atomic step of a device thread keeps the control invariant: ready flags against map entries, mutex owners, what a sample of the suspended flag implies, who may be deciding or transferring |
| `HandoverInvariants.ThreadKeepsData` | pkg/common/dirty_manager.go:48-135 | every such step keeps the data invariant: a block the destination lacks is dirty, fetched, announced or in flight, and after the suspend nothing new can become dirty |
| `HandoverInvariants.ActionKeepsInv` | pkg/common/dirty_manager.go:48-193 | the same for guest writes, write-back, dirty marks, reads and deliveries of copies |
| `HandoverInvariants.RunKeepsInv` | pkg/common/dirty_manager.go:48-193 | the invariant holds in every state of every interleaving |
| `HandoverTheorems.HandoverPreservesImage` | pkg/common/dirty_manager.go:88-135 | once authority has passed, source stopped and flushed, the destination differs from the guest's image only in announced blocks still in flight, and equals it on every device whose copies have drained |
| `HandoverTheorems.StoppedImageStands` | pkg/common/vm_state.go:66-94 | a stopped guest stays stopped in that migration and its image does not change |
| `HandoverImage.GuestIsWritten` | pkg/common/dirty_manager.go:70-135 | in every state of every run each block of every device is, for the guest, the value of the last write to it among the actions of the run, or what it held at the start |
| `HandoverImage.DestinationGetsImage` | pkg/common/dirty_manager.go:88-135 | in any later state in which a device has drained, every block of the destination is the value the guest last wrote to it before the transfer, and it wrote none after |
| `HandoverTheorems.AuthorityAtMostOnce` | pkg/common/dirty_manager.go:110-122 | no run transfers authority twice, and a transfer implies a suspended VM |
| `HandoverTheorems.AuthorityExactlyOnce` | pkg/common/dirty_manager.go:88-123 | when all device loops end without an error, authority was transferred exactly once |
| `HandoverTheorems.LastDeviceTransfers` | pkg/common/dirty_manager.go:96-118 | whoever calls the transfer is the last: all other loops have ended |
| `HandoverTrace.FailedCallbackNeverTransfers` | pkg/common/dirty_manager.go:176-187 | from the moment a suspend or msync callback has failed, no later state is suspended or has transferred authority |
| `HandoverTheorems.FailedSuspendNeverTransfers` | pkg/common/dirty_manager.go:181-187 | the same from the moment the failed suspend counts as completed, whatever its callbacks were |
| `HandoverTrace.RunKeepsTrace` | pkg/common/vm_state.go:66-94 | in every state of every run the callbacks made so far are those of one attempt up to where its thread is |
| `HandoverTrace.OneAttemptPerRun` | pkg/common/vm_state.go:66-94 | a run makes at most one attempt to suspend, complete once the suspend counts as completed |
| `HandoverTrace.ChannelsClosedOnce` | pkg/common/dirty_manager.go:181-187 | a thread about to close either channel finds it open |
| `HandoverTheorems.PassBeganSuspended` | pkg/common/dirty_manager.go:48-51 | a pass that counts as suspended sampled the flag after the suspend and only then fetched |
| `HandoverTheorems.FullPassAfterSuspension` | pkg/common/dirty_manager.go:48-77 | before authority passes, every device sampled and then fetched after the suspend |
| `HandoverPasses.FetchFollows` | pkg/common/dirty_manager.go:48-68 | the step before a fetch sampled the flag, or, for memory while the VM runs, was a successful msync after that sample, and then MaxCycles is positive |
| `HandoverPasses.EmptyPassAnswer` | pkg/common/dirty_manager.go:70-77 | a pass with nothing dirty after the suspend is answered with false and marks its device sent if it is in the ready map; every other pass is answered with true and changes nothing |
| `HandoverPasses.PassBeginsAnswer` | pkg/common/dirty_manager.go:48-68 | the answer is false exactly for memory of a running VM with MaxCycles not positive, which is then ready, and an error exactly if the msync of a running VM failed |
| `HandoverPasses.PassEndsAnswer` | pkg/common/dirty_manager.go:125-193 | the answer is false exactly in a pass after the suspend, which marks its device sent if it is in the ready map; otherwise it is an error exactly if a suspend was tried and failed |
| `HandoverPasses.AnnouncesWork` | pkg/common/dirty_manager.go:70-77 | a list announced in a pass after the suspend is not empty |
| `HandoverPasses.EmptyPassEnds` | pkg/common/dirty_manager.go:70-77 | from a fetch of nothing after the suspend, in every later state the device has ended, failed or is on its way there without announcing |
| `HandoverPasses.ListIsFetched` | pkg/common/dirty_manager.go:125-158 | the list that a pass holds, announces and counts has the length of the one it fetched; the only pass without a fetch is that of memory with MaxCycles not positive, which has made memory ready |
| `HandoverCounts.ReadyByItsCounts` | pkg/common/dirty_manager.go:155-166 | in every state of every interleaving a device has counted one cycle per list and, unless MaxCycles turns memory off, is ready or about to be flagged if and only if one of its counts settles it |
| `HandoverErrors.FailedExactlyWhen` | pkg/common/dirty_manager.go:48-193 | in every state of every interleaving a loop has ended with an error, or is about to, if and only if one of its own calls has failed |
| `HandoverTheorems.UnreachableBranches` | pkg/common/dirty_manager.go:88-153 | the miss in the ready map, the early return, the repeated transfer, the full wait and the repeated suspend never happen |
| `HandoverTheorems.ReadyCountIsExact` | pkg/common/dirty_manager.go:168-177 | comparing the two sizes is the same as every device being ready, and a suspended VM implies it |
| `HandoverTheorems.LocksAreOrdered` | pkg/common/dirty_manager.go:88-120 | the mutexes are taken in one order |
| `HandoverTheorems.OwnerLeadsOn` | pkg/common/dirty_manager.go:88-190 | following what the owner of a mutex waits for ends at a thread that can move |
| `HandoverTheorems.NoDeadlock` | pkg/common/dirty_manager.go:88-190 | while a device loop is unfinished, some thread can move |
| `HandoverSolo.PreGetDirtyAlone` | pkg/common/dirty_manager.go:48-68 | undisturbed, the atomic steps of this hook lead to exactly the state and answer of its specification |
| `HandoverSolo.PostGetDirtyAlone` | pkg/common/dirty_manager.go:70-77 | the same for this hook |
| `HandoverSolo.PostMigrateDirtyAlone` | pkg/common/dirty_manager.go:125-193 | the same for this hook |
| `VMState.VMStateMgr.constructor` | pkg/common/vm_state.go:27-42 | a new manager is not suspended and has called nothing |
| `VMState.VMStateMgr.SuspendAndMsync` | pkg/common/vm_state.go:66-94 | new state, trace of callbacks and error are those of the specification; the channel is open when it is closed |
| `VMState.OneAttempt` | pkg/common/vm_state.go:73-93 | an attempt appends its callbacks up to the failure, and suspends exactly on success |
| `VMState.SuspendTrace` | pkg/common/vm_state.go:66-94 | over any calls: failed attempts, then at most one complete one; suspended and channel closed exactly when some call succeeded |
| `VMState.CallsAfterSuccess` | pkg/common/vm_state.go:69-71 | after a success no call does anything |
| `DirtyManagement.DirtyManager.constructor` | pkg/common/dirty_manager.go:38-46 | a fresh manager over the given devices |
| `DirtyManagement.DirtyManager.PreGetDirty` | pkg/common/dirty_manager.go:48-68 | whole new state and answer as specified |
| `DirtyManagement.DirtyManager.PostGetDirty` | pkg/common/dirty_manager.go:70-77 | whole new state and answer as specified |
| `DirtyManagement.DirtyManager.PostMigrateDirty` | pkg/common/dirty_manager.go:125-193 | whole new state and answer as specified |
| `DirtyManagement.DirtyManager.MarkDeviceReady` | pkg/common/dirty_manager.go:79-86 | flag and map entry of one device, nothing else |
| `DirtyManagement.DirtyManager.MarkReadyDeviceSentDirty` | pkg/common/dirty_manager.go:88-123 | marks the device sent and transfers authority exactly in the case specified |
| `DirtyManagement.DirtyManager.AllDevicesSent` | pkg/common/dirty_manager.go:96-101 | the scan finds out whether every device is ready and has sent its list |
| `DirtyManagement.DirtyManager.CountCycle` | pkg/common/dirty_manager.go:155-166 | the counters after one cycle and whether it settles the device |
| `DirtyManagement.DirtyManager.SuspendOnce` | pkg/common/dirty_manager.go:176-187 | the suspend counts as completed whether or not it worked; its channel is open when it is closed |
| `DirtyManagement.DirtyManager.SuspendWhenAllReady` | pkg/common/dirty_manager.go:170-192 | whole new state and answer as specified |
| `DirtyManagement.DirtyDevices` | pkg/common/migrations.go:514-522 | one fresh status per name, from the last entry with that name |
| `Convergence.ReadyWithinBound` | pkg/common/dirty_manager.go:155-166 | whatever the dirty counts, a device is ready after max(MaxCycles, 1) + max(MinCycles, 0) counted cycles |
| `Convergence.ReadyExactlyWhen` | pkg/common/dirty_manager.go:155-166 | for any counts: a fresh device is ready if and only if some count is at the threshold and late, or is below it with more than MinCycles below it since the last one at the threshold that was not late |
| `Convergence.BoundIsTight` | pkg/common/dirty_manager.go:155-166 | some counts of one cycle fewer leave a fresh device unready if and only if some count can be below the threshold or none has to be |
| `Convergence.MaxCyclesSuffice` | pkg/common/dirty_manager.go:155-166 | MaxCycles counted cycles always make a fresh device ready if and only if MaxCycles is positive and MinCycles is not, or no count can be below the threshold |
| `Convergence.RunningPass` | pkg/common/dirty_manager.go:48-193 | a pass while the VM runs does nothing but count a cycle, mark its device and perhaps suspend |
| `Convergence.RunningTurn` | pkg/common/dirty_manager.go:48-193 | while the VM runs, a pass either leaves it running with someone unready or suspends it with all ready |
| `Convergence.HaltedTurn` | pkg/common/dirty_manager.go:70-135 | after the suspend a pass ends its loop, and the last one transfers authority |
| `Convergence.RoundDescends` | pkg/common/dirty_manager.go:48-193 | every round of passes makes the measure smaller |
| `Convergence.DirtyPhaseEnds` | pkg/common/dirty_manager.go:48-193 | all loops end and authority passes once, within one round after the largest bound |
| `HandoverLiveness.CyclesWithinBound` | pkg/common/dirty_manager.go:155-166 | in every state of every interleaving, a device that is not ready has counted fewer cycles than its bound, or as many and is about to be flagged |
| `HandoverLiveness.ReadyAfterSteps` | pkg/common/dirty_manager.go:48-193 | without errors, a thread that has taken 25 steps per cycle of its bound, and 25 more, has made its device ready |
| `HandoverLiveness.EndedAfterSteps` | pkg/common/dirty_manager.go:48-193 | once all devices are ready, a thread that takes 62 more steps has ended its loop |
| `HandoverLiveness.FairRunsEnd` | pkg/common/dirty_manager.go:48-193 | so every run without errors that lets each thread take its steps ends all loops, with authority transferred exactly once |
| `HandoverLiveness.FailedSuspendNeverEnds` | pkg/common/dirty_manager.go:176-192 | once a suspend has failed no loop ends any more, and a loop goes on until the driver, or msync if it is memory's, has an error in it |
| `MemoryImage.OverlayIsImage` | pkg/runtimes/firecracker/runtime.go:609-652 | copying region after region gives memory on every mapped offset and leaves the rest |
| `MemoryImage.ImageIsUnique` | pkg/runtimes/firecracker/runtime.go:609-652 | those two conditions determine the provider |
| `MemoryImage.MarkAllCovers` | pkg/runtimes/firecracker/runtime.go:764-780 | marking stretches keeps old marks and dirties the block of every byte of each |
| `MemoryImage.MarkAllOnly` | pkg/runtimes/firecracker/runtime.go:764-780 | a newly dirty block is touched by one of them |
| `MemoryGrab.ChunksFindAll` | pkg/runtimes/firecracker/runtime.go:612-632 | every differing byte of a region lies in a block the comparison finds |
| `MemoryGrab.ChunksHoldADifference` | pkg/runtimes/firecracker/runtime.go:612-632 | every block found is at most a block long and holds a differing byte |
| `MemoryGrab.AllChunksAreExact` | pkg/runtimes/firecracker/runtime.go:609-652 | both, over all regions |
| `MemoryGrab.MemoryGrabber.CompareRegion` | pkg/runtimes/firecracker/runtime.go:609-652 | one region copied, and exactly its differing blocks marked, as the two settings say |
| `MemoryGrab.MemoryGrabber.GrabFailsafe` | pkg/runtimes/firecracker/runtime.go:547-665 | the whole provider, the marks on every tracker and the soft-dirty bits afterwards |
| `MemoryGrab.MemoryGrabber.ReadSoftRanges` | pkg/runtimes/firecracker/runtime.go:726-753 | the ranges hold exactly the soft-dirty bytes of the region |
| `MemoryGrab.MemoryGrabber.CollectAndClear` | pkg/runtimes/firecracker/runtime.go:690-758 | ranges collected while paused are those soft-dirty then, and the bits are cleared |
| `MemoryGrab.MemoryGrabber.MarkRanges` | pkg/runtimes/firecracker/runtime.go:764-780 | every tracker is marked with every collected range, at its place on the device |
| `MemoryGrab.MemoryGrabber.CopyRange` | pkg/runtimes/firecracker/runtime.go:782-795 | after a range is copied, with the guest writing meanwhile, differences remain only where bits are set or a copy is to come |
| `MemoryGrab.MemoryGrabber.CopyAll` | pkg/runtimes/firecracker/runtime.go:782-795 | the same for all ranges, and nothing outside the regions is written |
| `MemoryGrab.MemoryGrabber.CoveredImage` | pkg/runtimes/firecracker/runtime.go:668-806 | with no bit set and no copy to come, the provider is the image the full comparison gives |
| `MemoryGrab.MemoryGrabber.GrabSoftDirty` | pkg/runtimes/firecracker/runtime.go:668-806 | keeps "every difference is soft-dirty" whatever the guest writes, marks exactly the bytes soft-dirty before, and with the guest stopped leaves what the full comparison leaves |
| `MemoryLifecycle.FailsafeIsExact` | pkg/runtimes/firecracker/runtime.go:606-652 | provider equal to memory where mapped and unchanged elsewhere, every difference dirty, every newly dirty block touched by a chunk with a difference |
| `MemoryLifecycle.ComparisonKeepsHeld` | pkg/runtimes/firecracker/runtime.go:606-652 | a full comparison that marks leaves no difference from what is held undirtied |
| `MemoryLifecycle.GrabMemoryChanges` | pkg/runtimes/firecracker/runtime.go:522-544 | either mode keeps what the provider and the writeback tracker promise between grabs, and with the guest stopped makes the provider the image |
| `MemoryLifecycle.GrabUntilSuspended` | pkg/runtimes/firecracker/runtime.go:243-288 | after any number of grabs and guest writes and the last grab, the provider is the image if it is updated, and what was there at the start overlaid with the blocks dirty for the writeback is guest memory; memory holds the last store of the period before the last grab at each of its addresses, and of all periods when grabs compare |
| `MemoryLifecycle.WritebackLife` | pkg/runtimes/firecracker/runtime.go:479-519 | from a device equal to memory, through grabs that only mark or also copy, the flush leaves the device equal to memory |
| `DirectTransfer.EventKeeps` | pkg/runtimes/firecracker/runtime.go:668-780 | every guest write, step of a grab, fetch and read keeps: a byte the receiver lacks is soft-dirty, about to be marked, dirty or still to be read |
| `DirectTransfer.ReceiverHoldsMemory` | pkg/runtimes/firecracker/runtime.go:668-780 | in any interleaving of those, once nothing is outstanding the receiver has guest memory on every mapped offset and nothing else has changed |
| `DirectTransfer.ReceiverHoldsStores` | pkg/runtimes/firecracker/runtime.go:668-780 | then at every mapped offset the receiver has the last value that the guest stored there in the run, or the initial one |
| `DirectTransfer.StartIsSafe` | pkg/runtimes/firecracker/runtime.go:107-122 | what Resume seeds is a start of such a run |
| `DirectTransfer.LastGrabSettles` | pkg/runtimes/firecracker/runtime.go:466-475 | with the guest stopped, one grab, one fetch and the reads it owes leave nothing outstanding |
| `DirectTransfer.CollectIsClear` | pkg/runtimes/firecracker/runtime.go:690-758 | the paused part of the grab is the step that clears the bits |
| `DirectTransfer.MarkIsMark` | pkg/runtimes/firecracker/runtime.go:764-780 | a mark of the next range is the step that marks it |
| `FailsafeTransfer.NothingLost` | pkg/runtimes/firecracker/runtime.go:609-652 | on a schedule that loses no byte the receiver gets guest memory, whatever the guest does |
| `FailsafeTransfer.EarlyIsLost` | pkg/runtimes/firecracker/runtime.go:609-652 | a byte read between a fetch that may have found it dirty and the last grab: some guest makes the receiver wrong |
| `FailsafeTransfer.RightExactlyWhenNothingIsLost` | pkg/runtimes/firecracker/runtime.go:609-652 | a schedule is right for every guest if and only if it loses no mapped byte, a condition on the operations, the blocks dirty from the start and whether grabs mark |
| `FailsafeTransfer.RestoredByteIsLost` | cmd/drafter-perf/runtime-silo.go:583-592 | the run of one byte, with the settings of direct memory, in which the receiver keeps an old value |
| `FailsafeTransfer.CompareIsGrab` | pkg/runtimes/firecracker/runtime.go:547-665 | the grabber's method is the grab of that model |
| `GrabIsFlush.DirectGrabFlushes` | pkg/runtimes/firecracker/runtime.go:466-475 | a soft-dirty grab that marks, of the stopped machine, is the flush of the memory device whose readers read the process |
| `GrabIsFlush.CopyGrabFlushes` | pkg/runtimes/firecracker/runtime.go:466-475 | a soft-dirty grab that copies, of the stopped machine, is the flush of the memory device whose readers read the provider |
| `GrabIsFlush.CompareGrabFlushes` | pkg/runtimes/firecracker/runtime.go:547-665 | a full comparison that copies is that flush after some unchanged blocks were marked |
| `GrabIsFlush.DirectRunIsHandover` | pkg/runtimes/firecracker/runtime.go:668-780 | every run of direct memory under a migration is, block by block, a run of the memory device of the handover |
| `CopyTransfer.EventKeeps` | pkg/runtimes/firecracker/runtime.go:668-795 | every guest write, clear, byte read, byte written and fetch keeps: the device differs from memory only where a byte is soft-dirty or to be written |
| `CopyTransfer.CaughtUp` | pkg/runtimes/firecracker/runtime.go:782-795 | once nothing is soft-dirty or to be written the device is the image |
| `CopyTransfer.DeviceHoldsStores` | pkg/runtimes/firecracker/runtime.go:668-795 | then at every mapped offset the device has the last value that the guest stored there in the run, or the initial one |
| `CopyTransfer.CopyRunIsHandover` | pkg/runtimes/firecracker/runtime.go:668-795 | every run of soft-dirty grabs that copy, under a migration, is block by block a run of the memory device of the handover |
| `CopyTransfer.CollectIsClear` | pkg/runtimes/firecracker/runtime.go:690-758 | the paused part of the grab is the clear of that model |
| `CopyTransfer.WriteIsSave` | pkg/runtimes/firecracker/runtime.go:782-795 | a byte written by the copy is the save of that model |
| `DirectMemory.SeedDirty` | pkg/runtimes/firecracker/runtime.go:109-122 | a block is dirty afterwards if and only if it was before, or it is on the device and not on the list; a byte of a listed block only if it was before |
| `DirectMemory.SeededCovers` | pkg/runtimes/firecracker/runtime.go:107-122 | then every byte the receiver does not hold is in a dirty block |
| `DirectMemory.MarkingKeepsCover` | pkg/runtimes/firecracker/runtime.go:764-780 | a grab that marks keeps changed bytes dirty or soft-dirty |
| `DirectMemory.ReceiverGetsMemory` | pkg/runtimes/firecracker/runtime.go:764-780 | covered and nothing soft-dirty: held blocks overlaid with dirty ones are guest memory |
| `DirectMemory.UncoveredIsLost` | pkg/runtimes/firecracker/runtime.go:764-780 | the converse: if the receiver's result is right, every difference was in a dirty block |
| `DirectMemory.DirtyBlocks` | pkg/runtimes/firecracker/runtime.go:483-484 | the dirty blocks that start on the device, in order |
| `DirectMemory.FlushDevices` | pkg/runtimes/firecracker/runtime.go:479-519 | the device with the dirty blocks, and no other byte, taken from memory; it fails exactly when one of their bytes is unmapped, with only the blocks before it written |
| `HandoverCompletion.PassAlone` | pkg/common/dirty_manager_test.go:65-102 | a pass of one device, stepping alone through all three hooks, is the pass that the convergence results count |
| `HandoverCompletion.RoundAlone` | pkg/common/dirty_manager_test.go:65-102 | a round of such passes over all devices is a run of the concurrent system |
| `HandoverCompletion.CanComplete` | pkg/common/dirty_manager.go:48-193 | from every initial state some run ends every loop, transfers authority once and leaves every device of the destination equal to the guest's image |
| `HandoverCompletion.SomeStart` | pkg/common/migrations.go:535-542 | there are initial states with the guest running, pages not written back and blocks to send |
| `Migration.SendsExact` | pkg/common/migrations.go:525-533 | one authority event has been sent if the transfer flag is set, and none otherwise, during the call and after it |
| `Migration.ActionSound` | pkg/common/dirty_manager.go:48-193 | every action of a migration, called or returned from, keeps the control invariant apart from what it says about the machine |
| `Migration.OverIsDecided` | pkg/common/migrations.go:537-544 | once MigrateTo can have returned, no action of its remaining loops changes the transfer flag |
| `PeerTree.RunKeepsTree` | pkg/peer/peer.go:193-477 | whatever the users do and whatever loops outlive their call, the invariant of peers and of the ways between them holds in every state |
| `PeerTree.ParentHanded` | pkg/common/migrations.go:440-445 | a peer that returned from MigrateFrom got exactly one event, of a migration that has handed the VM over |
| `PeerTree.AtMostOneRuns` | pkg/peer/peer.go:369-462 | in every tree of peers at most one runs the VM if no user resumes or migrates a peer that has handed it over: with migrations that return an error, retries, and loops that go on after the return |
| `PeerRuns.RunsSinceResume` | pkg/peer/peer.go:369-462 | in every state of every history a peer runs the VM if and only if it was resumed and since then neither stopped nor suspended by one of its migrations |
| `PeerTree.ReadyClosedOnce` | pkg/common/migrations.go:405-410 | whatever the users do, close(ready) never runs twice, and a peer returns only on an event of a suspended predecessor |
| `PeerTree.NotSuspendedNotHanded` | pkg/peer/peer.go:443-462 | a peer none of whose migrations reported the VM suspended has not handed it over |
| `PeerTree.SuccessHandsOver` | pkg/common/migrations.go:537-568 | a MigrateTo whose loops all ended without an error has handed the VM over, with exactly one event |
| `PeerTree.ErrorDecides` | pkg/common/migrations.go:537-544 | a MigrateTo with a failed loop has handed it over if and only if that loop had sent its list, which is the error of the transfer, and nothing changes that later |
| `PeerTree.ResumeIsExact` | pkg/peer/peer.go:369-405 | while one peer runs the VM, resuming another makes two if and only if that one had handed it over |
| `PeerTree.MigrateIsExact` | pkg/peer/peer.go:407-462 | while one peer runs the VM, migrating another away to a waiting destination can lead to two, without any further breach, if and only if that one had handed it over |
| `PeerTree.RetryAfterError` | pkg/peer/peer.go:407-462 | a lawful history: memory's msync fails at once and MigrateTo returns, the other loops unfinished, and the next MigrateTo hands the VM to a destination that is resumed |
| `PeerTree.TwoDestinations` | pkg/peer/peer.go:454 | a run with a second MigrateTo after authority has passed, in which two destinations return and are resumed |
| `Mailbox.AgentRPC.Handle` | pkg/ipc/agent_rpc.go:204-282 | what each move of the handler does to the slot; it is empty after a connection has ended |
| `Mailbox.AgentRPC.GetRemote` | pkg/ipc/agent_rpc.go:146-170 | with the handler moving in between: the call is a run of the model's moves, the returned remote is back in the slot, is the published one if one is published, and is older than the latest if its moves publish one between the last take and the put-back, which `quiet` tells exactly; from an empty slot it returns one only if its moves publish one, and it gives up on a full slot only after a put-back that failed |
| `Mailbox.PublishedIsReachable` | pkg/ipc/agent_rpc.go:146-170 | while connection k is published its remote is in the slot or the consumer's hand, and a call that takes or returns one then gets it |
| `Mailbox.PublishesLastAccepted` | pkg/ipc/agent_rpc.go:204-282 | what is published is the remote of the connection accepted last, after the handler accepted it, cleared the slot and found its remote, in that order |
| `Mailbox.FullSinceFilled` | pkg/ipc/agent_rpc.go:146-282 | the slot is full if and only if the last move that fills or empties it fills it, and then holds what that move put there |
| `Mailbox.OnlyEmptyIsFilled` | pkg/ipc/agent_rpc.go:151-164 | a full slot is never overwritten, an empty one never taken from, and a call drops its remote only if one was published since it took it |
| `Mailbox.HandSinceTake` | pkg/ipc/agent_rpc.go:151-164 | a consumer holds a remote if and only if its last move was a take, and it is what that take found |
| `Mailbox.FullWithoutConnection` | pkg/ipc/agent_rpc.go:261-270 | a slot that is full while no connection is published was filled by a put-back after the last connection ended, of a remote taken before it ended |
| `Mailbox.EndedMeansEmpty` | pkg/ipc/agent_rpc.go:261-270 | after a connection has ended with no remote in a hand, slot and hand stay empty until the next one is published |
| `Mailbox.OlderRemoteReturned` | pkg/ipc/agent_rpc.go:146-170 | a run in which an older remote is returned after a newer one was published |
| `Mailbox.HeldSinceTake` | pkg/ipc/agent_rpc.go:146-170 | what the consumer holds is the latest publication at its take and, exactly if none came since, still is |
| `Mailbox.FreshExactlyWhenQuiet` | pkg/ipc/agent_rpc.go:146-170 | all calls of a run return the latest remote if and only if its moves publish none between a take and the put-back that follows it |
| `PortForwarding.NextKeepsRule` | pkg/network/forwarder/forward_ports.go:190-257 | every step keeps, for each rule, its count equal to the initial one plus the deletes collected plus those still owed |
| `PortForwarding.RunKeeps` | pkg/network/forwarder/forward_ports.go:303-362 | so in every interleaving, with failures at any point |
| `PortForwarding.HookRunsFirst` | pkg/network/forwarder/forward_ports.go:246-256 | run in reverse, a complete port's hook comes right before its own deletes, last rule first |
| `PortForwarding.ForwardedPorts.Defer` | pkg/network/forwarder/forward_ports.go:272-281 | the order in which the undo functions are deferred |
| `PortForwarding.ForwardedPorts.Close` | pkg/network/forwarder/forward_ports.go:269-283 | restores the initial rules with no delete missing its rule, and runs every undo function once in reverse |
| `PortForwarding.SetUpAndClose` | pkg/network/forwarder/forward_ports.go:66-299 | set-up and one Close: rules as before, no miss, each hook run once for a complete port and never for another |
| `PortRules.RunInstalls` | pkg/network/forwarder/forward_ports.go:190-257 | at every moment of every interleaving of the set-up each rule is there as often as before it plus once for every time it was appended |
| `PortRules.RuleDoes` | pkg/network/forwarder/forward_ports.go:190-233 | whatever packet a rule of a port matches, in any table and chain, the port is to catch there, and the rule does to it what the port should |
| `PortRules.PortDoes` | pkg/network/forwarder/forward_ports.go:190-233 | for every packet a port is to catch it has a rule that matches it |
| `PortRules.JoinedEndpoint` | pkg/network/forwarder/forward_ports.go:214-221 | the target of a DNAT rule reads back as the address and port it was joined from |
| `PortRules.FrontendIsSentOn` | pkg/network/forwarder/forward_ports.go:214-221 | in OUTPUT and PREROUTING a packet is sent to the internal address and port of a port with its frontend, to exactly that of an announced port if no other has the frontend, and otherwise passes |
| `PortRules.BackendIsMasqueraded` | pkg/network/forwarder/forward_ports.go:228-233 | a packet is masqueraded if it goes to the internal address and port of an announced port, and only if it goes to that of some port |
| `PortRules.ForwardIsAccepted` | pkg/network/forwarder/forward_ports.go:190-204 | packets to and from the internal address of an announced port are accepted exactly if the port is not on a loopback address, unless another port with that address accepts them |
| `PortRules.PortIsForwarded` | pkg/network/forwarder/forward_ports.go:190-257 | the way of a packet to the frontend of an announced port through all four chains, and of the answer, at any moment before Close |
| `Package.NextMatch` | pkg/common/package.go:146-194 | any other choice of entries is no earlier than the greedy one |
| `Package.Find` | pkg/common/package.go:148-194 | stops at the first entry with the name, or at the end when there is none |
| `Package.ExtractDevice` | pkg/common/package.go:146-199 | one more device: the earliest entries, their files, or no entries could serve |
| `Package.ExtractPackage` | pkg/common/package.go:129-202 | succeeds if and only if the names are a subsequence of the archive's; otherwise names the first device that breaks it, with the earlier ones written |
| `Package.WrittenAt` | pkg/common/package.go:168-194 | every output path holds the bytes of the entry picked for the last device with that path |
| `Package.WrittenElsewhere` | pkg/common/package.go:168-194 | no other file changes |
| `Package.ArchivePackage` | pkg/common/package.go:63-127 | entries in order with their bytes, up to the first missing file |
| `Package.ArchiveThenExtract` | pkg/common/package.go:63-202 | every device's bytes are back at its output path and no other file has changed |
| `SnapshotConfig.CopySnapshotFile` | pkg/runtimes/firecracker/snapshotter.go:331-351 | content, then zeros, between 1 and 2 MiB of them, to a whole number of MiB |
| `SnapshotConfig.PaddingIsUnique` | pkg/runtimes/firecracker/snapshotter.go:337-343 | those conditions determine the padding |
| `SnapshotConfig.TrimConfig` | pkg/runtimes/firecracker/runtime.go:92-100 | everything before the first zero byte, and nothing if there is none |
| `SnapshotConfig.ConfigRoundTrip` | pkg/runtimes/firecracker/snapshotter.go:376-389 | a config written to a snapshot is read back if and only if it has no zero byte |

## Left out

- Silo (device groups, migrator, protocol, overlays, S3 sync, waiting cache): only the behaviour listed under "What the environment is assumed to do".
- Loops of an earlier migration that still fetch while a later one runs: they share the devices' dirty lists, and the image theorems are about a migration alone on its devices.
- CopyTransfer.CopyRunIsHandover: full comparisons that copy while the machine runs are not in it; of those, only the last one, of the stopped machine, is shown to be the flush (`GrabIsFlush.CompareGrabFlushes`).
- Writes by the destination to blocks still in flight: the destination resumes before its copies have drained, and the waiting cache that orders those accesses is Silo's; the image theorems speak of the copies alone.
- Writes to a device after the suspend: the code only logs them (`pkg/runtimes/firecracker/runtime.go:450-464`), and the model takes a suspended guest to be stopped.
- Real time: the cycle throttle, timeouts and retry sleeps are delays of any length.
- A thread that reads the dirty manager's counters without a mutex: each is written by its own device's thread only, and the flag that others read never goes back.
- Errors inside a grab: the soft-dirty bits are cleared even when reading ranges failed (`pkg/runtimes/firecracker/runtime.go:732-735`), so grabs are taken to succeed.
- Page swaps and the lock around grabs: one grab at a time.
- Reads of guest memory by the migration are single bytes at any time after the fetch, in `DirectTransfer.dfy` and `FailsafeTransfer.dfy`; that a block is read at one moment is not used.
- A shared mapping of the memory device (no grabs): that an msync writes back and marks every page is assumed of the kernel and the device.
- Several consumers of the remote at once: one that holds an old remote can displace a newer one; `Resume` and `Suspend` exclude each other by `runningLock`.
- A connection that publishes more than one remote: a registry is linked to one stream.
- The error value of `concurrentMap`, which is joined after `wg.Done`, and a second `Close` of the forwarded ports, whose undo list is not cleared.
- iptables failing to delete a rule that is there, or rules changed by others.
- Addresses, namespaces and the veth lookup of the port forwarder: a port enters the model with its host and internal address resolved, as texts; a rule's address is compared with a packet's as text.
- Rules of others in the four chains: the results about packets are for packets that those rules do not match.
- tar, zstd, JSON, permissions, directories and device nodes: packages are sequences of named byte strings, files a map from path to bytes.
- Cancellation and I/O errors in package extraction: an entry is always readable and a path always writable.
- uint64 wrap-around of addresses and offsets: regions are taken to lie inside memory and device.
- Address allocation, network namespaces, NAT, vsock, process handling, metrics and the command-line programs: they would add only easy members.
