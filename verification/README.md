# Verified models of the Tyn kernel

Tyn is an x86-64 unikernel kernel written in Rust.  This project models its most intricate
mechanisms in Dafny and proves what they are for.  `dafny verify dfyconfig.toml` checks everything.

| files | what they model |
|---|---|
| `sched_*.dfy`, `pending_wakes.dfy` | the SMP futex scheduler, as a step system over any number of CPUs and runs of any length |
| `ring_slots.dfy`, `virtq*.dfy` | the split virtqueue driver, the in-spec device, and the queue that owns its buffers |
| `mmap_regions.dfy`, `mmap.dfy` | the coalescing best-fit mmap region allocator |
| `paging_tables.dfy`, `paging.dfy` | the splittable identity map, user/no-execute attributes, scratch and guard pages, the pointer check |
| `ena_rings.dfy`, `ena.dfy` | ENA submission and completion rings with phase bits |
| `seqlock.dfy` | the kvmclock seqlock readers |
| `tmpfs_tree.dfy`, `tmpfs.dfy` | the temporary file system |
| `sockets.dfy` | ownership of socket handles and fd numbers |
| `transfer.dfy` | writev and sendfile to a socket that accepts short |
| `cpio.dfy` | the cpio parser and its encoder |

## How the scheduler model works

`SchedState` has one transition per critical section or per unlocked access that another CPU can
observe.  A CPU's program counter says which lock guards it holds; the bucket locks and THREAD_LOCK
are plain bits.  Marking a thread Blocked is two steps (state first, then the other fields), a context
switch is a save and a load, and the bucket lock crosses the switch in the per-CPU hand-off slot.
`process_rescues` re-checks the state but not the bucket, as in the source, so a thread inside its own
wait may be current and queued once; accounting therefore lets a thread leave its CPU when it marks
itself Blocked, although that CPU executes it until the switch.  Fields after `home`/`ctx` in a thread
record are history used to state properties.  Three things are looser than the source, so the proofs
cover more runs: a yield or a rescue may happen at any point where no lock is held, `spawn` may pick
any CPU, and the order in which rescue flags are drained is free.

The invariant is proved on small views of the state: `SchedTokens` (where each thread is),
`SchedContexts` (registers), `SchedLocks` (owners of locks), `SchedWatch` (sleepers, debts of wakes,
scans).  `SchedSteps`, `SchedCalm` and `SchedWaking` connect every step to a move on these views;
`SchedPreserve` combines them; `SchedTheorems` and `SchedPromises` read the results off.
`SchedOutcomes`, `SchedCounts` and `SchedQueues` say what calls give back and in which order threads run.

## Assumptions that come from outside the modelled code

- The virtio device takes available entries in order, returns each request it holds once and writes
  no more than the writable length; the ENA device completes each receive buffer once and transmits
  in order; the kvmclock host makes the version odd before and even after each update and completes
  fewer than 2^31 updates between two version loads of one read.
- For no lost wake: a thread that changes a futex word owes a wake-all on it, and does not exit with
  such a debt.  The theorem says who still owes, at every moment.
- Critical sections of a spin lock are atomic.  mmap's free-list operations and its compare-exchange
  on the bump pointer are each one atomic action.
- The smoltcp socket set hands out a handle that is not in use, and changes socket states freely.
- 64-bit sums wrap and shift counts are taken modulo 64, as in a release build.
- Fewer than 2^32 threads are ever asked for and fewer than 2^31 descriptor numbers made, so these
  counters do not start over.
- The input of sendfile names the same file until it is closed.

The comment on `parent` in `src/tmpfs_tree.rs` says that the parent of `/tmp/a/b` is `/tmp`; the code
yields `/tmp/a`, and the model follows the code.

## Model

| member | source | states |
|---|---|---|
| `SchedPreserve.RunInv` | src/sched.rs:289-1144 | every state of every run from boot, of any length, any interleaving, any number of CPUs, satisfies the whole scheduler invariant |
| `SchedPreserve.StepInv` | src/sched.rs:289-1144 | each single step of each CPU keeps the invariant |
| `SchedTheorems.AccountedOnce` | src/sched.rs:289-1144 | every thread is in exactly one place: at one queue position, due on one CPU, carried by one CPU towards a queue, asleep, or dead |
| `SchedTheorems.NoDoubleQueue` | src/sched.rs:886-931 | no thread number occurs twice across all run queues |
| `SchedTheorems.RunsOnceAtHome` | src/sched.rs:536-645 | a CPU executes a thread only at its home, with the registers that thread itself produced; no thread runs on two CPUs |
| `SchedTheorems.QueuedOrCurrentAtHome` | src/sched.rs:536-561 | a thread queued or current on a CPU has that CPU as home |
| `SchedTheorems.NoStaleResume` | src/sched.rs:324-343 | a context switch loads exactly the registers the thread last had, while no CPU executes it, and resumes in its own wait, a yield or a fresh clone |
| `SchedTheorems.LocksExact` | src/sched.rs:205-225 | a bucket lock is held if and only if it has an owner, live guard or hand-off slot, and the owner is unique |
| `SchedTheorems.HandoffDiscipline` | src/sched.rs:824-828 | guard and slot are never both in use; the slot is empty when written; until a resume point the CPU only saves, loads and resumes |
| `SchedTheorems.ResumeReleases` | src/sched.rs:219-225 | a resume point releases the handed-off lock, which is held, and no other |
| `SchedTheorems.LockOrder` | src/sched.rs:1057-1063 | a CPU spinning for a bucket lock owns nothing, one spinning for THREAD_LOCK at most a bucket lock |
| `SchedTheorems.NeverStuck` | src/sched.rs:289-1144 | every kernel step finds the threads, contexts, queues and lock indices it reads; a CPU inside the kernel can step unless its lock is taken |
| `SchedTheorems.NoDeadlock` | src/sched.rs:733-828 | whenever a CPU is inside the kernel, some CPU can take a kernel step |
| `SchedTheorems.NoLostWake` | src/sched.rs:733-797 | a sleeper still sees its expected value, or some thread has changed the word and not finished its wake-all |
| `SchedTheorems.QuiescentSleepers` | src/sched.rs:886-949 | when nobody owes a wake, no thread sleeps on a changed word |
| `SchedTheorems.TimeoutIsOwn` | src/sched.rs:841-884 | a wait that blocked returns 0 or ETIMEDOUT, and ETIMEDOUT if and only if it had a deadline and the rescue that ended this very wait, once it was all marked, came at or after it |
| `SchedOutcomes.DeadlineIsReported` | src/sched.rs:1074-1082 | over any run: a timed wait still asleep at the deadline its caller gave and then rescued returns ETIMEDOUT, whenever and wherever it returns |
| `SchedOutcomes.SleepsAsAsked` | src/sched.rs:708-789 | over any run: a wait that blocks sleeps on the word, for the value and until the deadline of the call, since the moment it went to sleep, for as long as it sleeps |
| `SchedOutcomes.WaitAnswers` | src/sched.rs:735-779 | under the bucket lock a wait answers 0 for a recorded wake, -14 for an unreadable word, -11 for a changed one, 0 while blocking is not armed, and otherwise goes on to block with the lock held |
| `SchedOutcomes.WakesAsAsked` | src/sched.rs:886-948 | over any run: a wake works to its end on the word and with the count of the call |
| `SchedCounts.WakeCounts` | src/sched.rs:899-946 | over any run: the threads a wake takes from Blocked are at most count; if fewer, nobody who slept on the word when the scan began is left asleep; they are exactly the smaller of count and the sleepers if no other record names the word; a wake that woke somebody leaves no record |
| `SchedCounts.WakeReturns` | src/sched.rs:899-948 | over any run: the wake returns the number of threads it took from Blocked |
| `SchedCounts.StaleNameIsTaken` | src/sched.rs:781-789 | a waiter between its two marking steps whose record still names the word of an earlier wait is taken by a wake on that word |
| `SchedQueues.FirstComeFirstServed` | src/sched.rs:289-931 | over any run: while a thread stays in a queue those ahead of it are the last of those who were, in the same order |
| `SchedQueues.TakesFront` | src/sched.rs:289-822 | yield, the idle loop and a blocking wait run the front of their own queue next; a yield puts its thread at the back |
| `SchedOutcomes.SpawnNumbers` | src/sched.rs:423-428 | a spawn takes the next thread number and goes on if and only if it is below 32 |
| `SchedOutcomes.ChildCopiesParent` | src/sched.rs:465-560 | a child is ready to continue with the registers of its parent |
| `SchedPromises.RecordPersists` | src/sched.rs:182-203 | a recorded wake stays recorded through any run until a wait on its address takes it |
| `SchedPromises.WakeRecords` | src/sched.rs:932-946 | a wake that woke nobody is recorded if and only if it already was or fewer than eight addresses are recorded in its bucket |
| `SchedPromises.BucketsSpread` | src/sched.rs:272-275 | sixteen consecutive words are in sixteen different buckets |
| `SchedPromises.WaitTakesRecord` | src/sched.rs:735-742 | the next wait on a recorded address returns 0 without blocking and uses the record up |
| `SchedPromises.WakeIsNotLost` | src/sched.rs:735-946 | over any run: a wake that woke nobody while its table had room makes the next wait on that address, on any CPU and however much later, return 0 without blocking |
| `SchedPromises.WatchdogFlags` | src/sched.rs:1004-1043 | a tick flags a sleeper if and only if its word changed, or its caller's deadline passed, or it had none and slept five seconds |
| `SchedPromises.WatchdogSpares` | src/sched.rs:1004-1043 | a tick flags nobody who is not Blocked on a word |
| `SchedPromises.FlaggedIsRescued` | src/sched.rs:1049-1095 | from the moment a sleeper is flagged, at every later moment it has left that wait, or is flagged, or is being rescued; so once drained it is not Blocked in that wait |
| `SchedSteps.LoadedIsSaved` | src/sched.rs:324-343 | the context about to be loaded is the one its thread last saved |
| `SchedSteps.RescueNotQueued` | src/sched.rs:1079-1087 | a rescued thread is on no queue, so the membership check in process_rescues never refuses it |
| `PendingWakes.Table.Record` | src/sched.rs:182-192 | the two in-place loops record the address in the first empty slot unless present or full |
| `PendingWakes.Table.Take` | src/sched.rs:197-203 | the in-place loop clears the first slot with the address and reports whether there was one |
| `PendingWakes.InsertRecords` | src/sched.rs:182-192 | recording affects no other address and never records one twice |
| `PendingWakes.ConsumeRemoves` | src/sched.rs:197-203 | consuming removes that address and nothing else |
| `PendingWakes.RoomIff` | src/sched.rs:172-194 | a table has an empty slot if and only if fewer addresses are recorded than it has slots |
| `PendingWakes.NullAddress` | src/sched.rs:174-203 | address 0 doubles as the empty mark |
| `VirtqChains.DeviceReadsRequest` | virtio-drivers-patched/src/queue.rs:215-303 | from a chain's head the device reads exactly the request's buffers in order, direct or indirect |
| `VirtqChains.OneOwner` | virtio-drivers-patched/src/queue.rs:435-513 | each descriptor is free or in exactly one outstanding chain |
| `VirtqStates.Capacity` | virtio-drivers-patched/src/queue.rs:176-190 | free descriptors and requests in the rings never exceed the queue size |
| `VirtqStates.ChannelWrite` | virtio-drivers-patched/src/queue.rs:192-212 | writing the next ring slot overwrites no unread entry, through every wrap of the 16-bit index |
| `VirtqStates.ChannelRead` | virtio-drivers-patched/src/queue.rs:380-397 | indices differ if and only if there is an unread entry, and the slot holds the oldest |
| `Virtqueue.VirtQueue.constructor` | virtio-drivers-patched/src/queue.rs:117-146 | a fresh queue: all descriptors linked in order, nothing outstanding |
| `Virtqueue.Open` | virtio-drivers-patched/src/queue.rs:83-100 | a queue already in use, or larger than the device allows, is refused |
| `Virtqueue.VirtQueue.Add` | virtio-drivers-patched/src/queue.rs:161-213 | the error for every full or empty case in terms of free descriptors; otherwise the device finds behind the token every input in order to read and then every output in order to write; partition and rings kept |
| `Virtqueue.OutputsOnly` | virtio-drivers-patched/src/queue.rs:841-852 | what the device may write of a request is the outputs and nothing else |
| `Virtqueue.VirtQueue.AddDirect` | virtio-drivers-patched/src/queue.rs:215-249 | the loop fills the front of the free list, NEXT on all but the last, and leaves every other chain intact |
| `Virtqueue.VirtQueue.AddIndirect` | virtio-drivers-patched/src/queue.rs:252-303 | one descriptor points to a table of the buffers; the assertion that the slot is empty holds |
| `Virtqueue.VirtQueue.Unchain` | virtio-drivers-patched/src/queue.rs:479-513 | the recycling loop meets neither panic, and links the chain before the old free list |
| `Virtqueue.VirtQueue.Recycle` | virtio-drivers-patched/src/queue.rs:435-513 | the chain's descriptors go to the front of the free list; the partition holds |
| `Virtqueue.VirtQueue.PopUsed` | virtio-drivers-patched/src/queue.rs:527-566 | NotReady if nothing was returned, WrongToken if another request is next, both without effect; else the request is completed |
| `Virtqueue.VirtQueue.CanPop` | virtio-drivers-patched/src/queue.rs:380-382 | true if and only if the device has returned a request not yet popped |
| `Virtqueue.VirtQueue.PeekUsed` | virtio-drivers-patched/src/queue.rs:386-396 | the token of the oldest returned request |
| `Virtqueue.VirtQueue.DeviceTakes` | virtio-drivers-patched/src/queue.rs:797-809 | the device finds the oldest offered head and behind it exactly the request's buffers |
| `Virtqueue.VirtQueue.DeviceReturns` | virtio-drivers-patched/src/queue.rs:811-828 | returning a held request overwrites no unread used entry |
| `OwningQueues.OwningQueue.constructor` | virtio-drivers-patched/src/queue/owning.rs:21-36 | from a fresh queue, buffer i gets token i |
| `OwningQueues.OwningQueue.Poll` | virtio-drivers-patched/src/queue/owning.rs:107-125 | the handler's outcome is returned and the buffer is offered again under its own token, also after an error |
| `OwningQueues.Serve` | virtio-drivers-patched/src/queue/owning.rs:57-125 | over any sequence of polls, handler failures and device moves buffer i stays under token i: behind it the device finds buffer i, to write |
| `RingSlots.WrapKeepsSlot` | virtio-drivers-patched/src/queue.rs:192-205 | for a power-of-two size the slot of an index survives 16-bit wrapping |
| `MmapRegions.AddIsUnion` | src/syscall.rs:1322-1372 | adding a range whose end does not wrap is set union on the free addresses |
| `MmapRegions.AddKeepsTidy` | src/syscall.rs:1323-1372 | adding a range that was not free keeps entries page-sized, disjoint and maximally merged |
| `MmapRegions.AddDisjointIff` | src/syscall.rs:1323-1372 | the list stays disjoint if and only if the added range was not free |
| `MmapRegions.WrappedAdd` | src/syscall.rs:1322-1372 | adding a range whose 64-bit end wraps always damages the list: an empty entry, one past the address space, or free addresses lost |
| `MmapRegions.EmptyAdd` | src/syscall.rs:1322-1372 | adding an empty range leaves the list as it was if and only if it borders an entry, else it leaves an empty entry behind |
| `MmapRegions.TakeIsDifference` | src/syscall.rs:1377-1399 | taking removes exactly the handed-out range from the free addresses |
| `MmapRegions.TakeKeepsTidy` | src/syscall.rs:1377-1399 | taking keeps the list tidy |
| `MmapRegions.DropIsDifference` | src/syscall.rs:1403-1422 | dropping a range is set difference |
| `MmapRegions.DropTidyExactly` | src/syscall.rs:1403-1422 | dropping a range, at any address and even empty, keeps the list tidy if and only if it is a non-empty run of whole pages or no entry straddles either end |
| `Mmap.ReleaseIff` | src/syscall.rs:1305-1319 | for every range a call can name, the split into live and free survives its release if and only if its end does not wrap and its pages were live, or it is empty and borders a free entry |
| `Mmap.NamedPages` | src/syscall.rs:1309-1311 | an munmap names exactly the pages that hold a byte of what was asked for |
| `Mmap.ReleasedTwice` | src/syscall.rs:1305-1319 | a page released twice is in the list twice and can be handed out twice |
| `Mmap.ReleasedPastTheEnd` | src/syscall.rs:1305-1319 | a range whose end wraps to 0 passes the guard and becomes free up to 2^64, and a long request is served past MMAP_LIMIT |
| `Mmap.ReleasedNothing` | src/syscall.rs:1305-1319 | a length that rounds to 0 leaves an empty free entry |
| `Mmap.FixedIff` | src/syscall.rs:1242-1261 | the split survives a MAP_FIXED at any address if and only if it is empty or ends at or below the bump pointer (or the managed range), and it is made of whole pages or no free entry straddles one of its ends |
| `Mmap.Allocator.FreeAdd` | src/syscall.rs:1323-1372 | the two merging loops compute the specified list |
| `Mmap.Allocator.FreeTake` | src/syscall.rs:1377-1399 | the scan finds the first of the smallest entries that fit, or none fits |
| `Mmap.Allocator.FreeDrop` | src/syscall.rs:1403-1422 | retain and extend compute the specified list |
| `Mmap.Allocator.Munmap` | src/syscall.rs:1305-1319 | results, exact effect with the wrapping guard, and exactly when the split survives, from any state; where nothing wraps, what leaves live is exactly the pages holding a byte of the range asked for |
| `Mmap.Allocator.MapFixed` | src/syscall.rs:1242-1261 | results, exact effect, and exactly when the split survives, from any state; every byte asked for is live |
| `Mmap.Allocator.Map` | src/syscall.rs:1263-1303 | from any state: the first smallest entry that fits, else fresh addresses, else ENOMEM; every byte asked for becomes live and less than a page more; while the split holds it stays, and what is handed out was not live and lies in the managed range |
| `Mmap.Allocator.SysMmap` | src/syscall.rs:1235-1303 | which branch is taken; every byte asked for is live; while the split holds nothing live is handed out and nothing past the limit; exactly when the split survives |
| `PagingTables.UserIsWalk` | src/memory/paging.rs:466-494 | page_is_user agrees with the AND of present and user bits over all levels |
| `PagingTables.LookIsWalk` | src/memory/paging.rs:201-239 | in every sound hierarchy a user leaf is user at every covering level, so the processor's walk is the leaf |
| `PagingTables.SplitTransparentIff` | src/memory/paging.rs:168-192 | splitting keeps every translation; it keeps all access rights if and only if the region was supervisor and executable |
| `PagingTables.CoverLook` | src/memory/paging.rs:214-239 | opening the covering levels changes no page's access |
| `Paging.PageTables.constructor` | src/memory/paging.rs:87-158 | after boot every address below 4 GiB maps to itself; by address, exactly which are user and which are not executable |
| `Paging.PageTables.EnsurePt` | src/memory/paging.rs:168-192 | when a table is found or made, when not, and every page's view afterwards |
| `Paging.PageTables.SetAttrs` | src/memory/paging.rs:246-282 | exactly the present pages of GiB 0 in the range change access, to exactly the given attributes |
| `Paging.PageTables.SetPageUs` | src/memory/paging.rs:338-358 | one page's user bit, and what the split did to its neighbours |
| `Paging.PageTables.MapGuard` | src/memory/paging.rs:500-513 | exactly one page becomes absent |
| `Paging.PageTables.MapLowScratch` | src/memory/paging.rs:386-408 | a low page gets a fresh scratch frame, open to user code, or the call fails |
| `Paging.PageTables.InstallGuard` | src/sched.rs:423-463 | the arena is never used up because thread numbers run out first, so a guard never splits; stacks do not overlap and confinement stays |
| `Paging.PageTables.UserAccessible` | src/memory/paging.rs:416-446 | true if and only if every byte of the range is inside the map and user at every level |
| `Paging.PageTables.Confinement` | src/memory/paging.rs:87-400 | in every state reached after boot, by address: each address maps to itself with exactly its boot access, except that low pages may map to their scratch frames and guard pages of the arena may be absent; so user access reaches only user addresses and the low 2 MiB |
| `Paging.PageTables.ScratchNotShared` | src/memory/paging.rs:360-408 | distinct low pages never share a scratch frame |
| `EnaRings.ReadyIffWritten` | src/net/ena/ring.rs:41-47 | for any number of laps the phase test says ready if and only if the entry has been written |
| `EnaRings.SqFollows` | src/net/ena/ring.rs:23-27 | the 16-bit index and its phase follow the unbounded counter through every wrap |
| `EnaRings.CqFollows` | src/net/ena/ring.rs:33-40 | head and phase follow the unbounded counter |
| `EnaRings.FreeSlotsExact` | src/net/ena/ring.rs:54-56 | free_slots is the depth minus one minus the true number outstanding, across wraps |
| `EnaRings.CqReady` | src/net/ena/device.rs:138-150 | the head entry is ready if and only if a completion is unread, and is then the oldest |
| `Ena.EnaDevice.constructor` | src/net/ena/device.rs:64-98 | every receive buffer is posted once |
| `Ena.EnaDevice.PostRx` | src/net/ena/device.rs:106-125 | a buffer out of the rings is posted once; no unfetched descriptor is overwritten |
| `Ena.EnaDevice.Receive` | src/net/ena/device.rs:170-199 | the oldest completion is consumed and its buffer posted again, each buffer staying in one place |
| `Ena.EnaDevice.DrainTx` | src/net/ena/device.rs:138-150 | exactly the written completions are reaped, oldest first |
| `Ena.EnaDevice.TxFreeSlots` | src/net/ena/device.rs:153-155 | the number of slots left for frames |
| `Ena.EnaDevice.FillsFreeBuffer` | src/net/ena/device.rs:226-247 | the buffer a frame is built in belongs to no frame in flight |
| `Ena.EnaDevice.Transmit` | src/net/ena/device.rs:226-266 | sent if and only if the ring is not full; the frame is built in a buffer of no frame in flight and posted with its length and the phase of its lap |
| `Seqlock.Read` | src/pvclock.rs:120-137 | for every interleaving of host steps with the loads: the result is what a read in one instant would give, the fields at the first attempt the host left alone, None if and only if it left none of 4096 alone; always one completed update no older than the call |
| `Seqlock.StillHostIsRead` | src/pvclock.rs:120-137 | a host that leaves the page alone is read at the first attempt |
| `Seqlock.ReadFields` | src/pvclock.rs:158-170 | if the version is unchanged over the loads, so is every field |
| `Seqlock.RealtimeNs` | src/pvclock.rs:148-174 | None when unavailable or the read fails; otherwise the time computed from the one update the read returns |
| `Seqlock.ReadWallNs` | src/pvclock.rs:120-137 | seconds and nanoseconds of the one update the read returns, 0 if and only if it fails or they are 0 |
| `Seqlock.ScaleIs` | src/pvclock.rs:114-117 | the scaled delta is the shifted one times mul / 2^32, rounded down |
| `Seqlock.ShiftUp` | src/pvclock.rs:114-117 | a left shift multiplies as long as no bits are lost |
| `Seqlock.ShiftDown` | src/pvclock.rs:114-117 | a right shift divides, rounding down |
| `Seqlock.ClockMonotone` | src/pvclock.rs:168-170 | within one update the clock shows the update's time at its time stamp and does not run backwards |
| `TmpfsTree.Normalise` | src/tmpfs_tree.rs:26-43 | the trimming loop computes Norm |
| `TmpfsTree.NormIsNormal` | src/tmpfs_tree.rs:26-43 | norm yields an absolute path without trailing slashes and is idempotent |
| `TmpfsTree.NormMeans` | src/tmpfs_tree.rs:26-43 | a path is read from the root whether it begins with "/", "./" or neither, and slashes at the end are dropped |
| `TmpfsTree.MountsOwnDescendants` | src/tmpfs_tree.rs:60-62 | a mount owns its root and descendants and no path that merely starts alike |
| `TmpfsTree.UnderByParent` | src/tmpfs_tree.rs:48-71 | a path is under a directory if and only if its parent is that directory or under it |
| `TmpfsTree.GrantIsLargest` | src/tmpfs_tree.rs:84-93 | the grant is the largest write whose growth, gap included, fits the cap |
| `Tmpfs.Fs.constructor` | src/tmpfs.rs:116-122 | two mount roots, nothing counted |
| `Tmpfs.Fs.Open` | src/tmpfs.rs:197-267 | every outcome, the node and the open-table entry it leaves; total, cap, tree and mount roots kept |
| `Tmpfs.Fs.WriteAt` | src/tmpfs.rs:277-307 | every outcome; the granted prefix is written, gaps are zero; total, cap, tree and mount roots kept |
| `Tmpfs.Fs.Resize` | src/tmpfs.rs:493-510 | every outcome; the first bytes kept and zeros after them; total and cap kept; the cap test wraps and the call panics if and only if it does |
| `Tmpfs.Fs.Unlink` | src/tmpfs.rs:559-576 | only files go, nothing is orphaned, mount roots stay |
| `Tmpfs.Fs.Rename` | src/tmpfs.rs:581-627 | every outcome and effect; total right always; with the condition for a move stated before the call, the tree survives if and only if no node moves beneath itself, and a mount root is lost if and only if it is what moves |
| `Tmpfs.MovedBeneathItself` | src/tmpfs.rs:581-627 | moving /tmp/a to /tmp/a/b orphans it |
| `Tmpfs.RootMovedAway` | src/tmpfs.rs:581-627 | moving the empty root /tmp away leaves nothing under which it or its children could be created again |
| `Tmpfs.Fs.Mkdir` | src/tmpfs.rs:637-657 | every outcome; tree and mount roots kept, and a lost mount root is never made again |
| `Tmpfs.Fs.Rmdir` | src/tmpfs.rs:660-680 | every outcome; tree and mount roots kept |
| `Tmpfs.FilesAreLeaves` | src/tmpfs.rs:628-634 | in a tree nothing lies under a file |
| `Tmpfs.ReadBack` | src/tmpfs.rs:364-374 | reading back what was written yields it, the rest unchanged |
| `Tmpfs.ReadsWhatIsThere` | src/tmpfs.rs:364-374 | a read delivers as many bytes as were asked for and are there, each from its place |
| `Sockets.FdsDistinct` | src/net/socket.rs:183-190 | no fd number belongs to two sockets |
| `Sockets.HandlesDistinct` | src/net/socket.rs:532-607 | the handles of a socket's pool are distinct and in the socket set |
| `Sockets.Net.AllocFd` | src/net/socket.rs:183-190 | the last recycled number, else the next new one; no socket has it; every number ever handed out stays in one place |
| `Sockets.Net.Publish` | src/net/socket.rs:614-633 | the captured or new handle passes from the call to one socket |
| `Sockets.Net.Capture` | src/net/socket.rs:532-607 | the first established pool entry is captured and its slot refilled, or reset to a listener in place; the pool keeps its size and every handle one owner |
| `Sockets.Net.ListenOn` | src/net/socket.rs:445-496 | a full pool of distinct listening handles; ownership survives if and only if the socket had no pool before; a datagram socket panics |
| `Sockets.Net.Connect` | src/net/socket.rs:300-351 | every outcome; a listener becomes a stream; the pools stay in order if and only if it had none |
| `Sockets.Net.Detach` | src/net/socket.rs:990-999 | a closed fd names no socket; its handles and number are carried on |
| `Sockets.Net.Park` | src/net/socket.rs:1002-1015 | a stream's handle moves to the closing list |
| `Sockets.Net.Discard` | src/net/socket.rs:1016-1030 | a listener's or datagram handle leaves the socket set |
| `Sockets.Net.Gc` | src/net/socket.rs:1046-1075 | after a reap no closing entry is finished or 15 s old by the wrapping clock, every other entry stays, and only reaped handles left the socket set |
| `Transfer.Writev` | src/syscall.rs:2668-2705 | the bytes accepted are exactly the first r bytes of the concatenated vectors; fewer than all only after a short or refused send or up to an unreadable entry; an error only when nothing was accepted, and it is the one met |
| `Transfer.WritevAll` | src/syscall.rs:2668-2705 | over any retries from the reported count the stream is a contiguous prefix |
| `Transfer.Sendfile` | src/syscall.rs:2584-2666 | the bytes accepted are exactly the file's from the offset on, and the offset advances by their number; fewer than asked only at the end of the file, after a short or refused send, or when the input was closed; all in as few sends as 4096-byte chunks need |
| `Transfer.SendfileAll` | src/syscall.rs:2584-2666 | over any number of calls the stream is the file from its start offset, no gap, no repeat |
| `Cpio.ParseHex` | src/cpio.rs:11-23 | the loop computes the value of an 8-digit field |
| `Cpio.HexRoundTrip` | src/cpio.rs:11-23 | printed numbers parse back, in upper and lower case; no other byte counts |
| `Cpio.Lookup` | src/cpio.rs:29-76 | terminates on any bytes, refuses every malformed header, and a returned range lies inside the archive |
| `Cpio.HeaderIff` | src/cpio.rs:42-72 | a header is accepted if and only if it is well formed and lies in the buffer |
| `Cpio.FindSound` | src/cpio.rs:39-84 | on arbitrary bytes, what is found is the data of a well-formed header of that name reached through well-formed headers |
| `Cpio.FindComplete` | src/cpio.rs:39-84 | and every such header so reached is found |
| `Cpio.RoundTrip` | src/cpio.rs:29-84 | lookup of a name, with or without "/" or "./", in an encoded archive yields exactly the bytes of the first file of that name before the trailer |

## Left out

- Liveness and fairness of the scheduler, the ERTS init-time stall and the blocking valve: only safety and freedom from deadlock are proved.
- Kernel stack pointers, FPU state, inter-processor interrupts and the idle flag: a switch is a save and a load of one register value.
- `spawn`'s choice of CPU and the deadline arithmetic of `sys_futex`: the model allows any CPU and any deadline.
- SchedTheorems.TimeoutIsOwn: a rescue that lands between the two marking steps of a wait is forgotten when the fields are written, as in the source, so it never makes that wait time out.
- SchedCounts.WakeCounts: a record can name a word its thread no longer sleeps on (StaleNameIsTaken); where one does, the number woken is bounded on both sides but not given exactly.
- SchedPromises.WakeRecords: address 0 is excluded, here and in the other promises about records, since the table uses it as the empty mark (PendingWakes.NullAddress).
- Virtqueue notification suppression (`should_notify`, event indices), DMA layout and `Hal::share`: a buffer is its device address and length.
- Zero-filling of mapped memory, `brk`, and `mprotect`.
- The writable bit of page-table entries, which every entry sets; TLB maintenance; the optional ring-3 shim region.
- ENA admin queue, doorbells and frame contents.
- Seqlock.ReadWallNs: a read of the value 0 and a failed read are not told apart, as in the source.
- tmpfs directory listing, seek, stat, and the per-fd position bookkeeping of `read` and `write`.
- Socket data paths, ports and addresses of `connect` and `bind`, polling, and smoltcp itself.
- Transfer.Sendfile: the user-pointer check inside the socket send is not composed with it; the send is an oracle.
- Console, block and input drivers, ELF loading, APIC, PCI, boot code, and the older cooperative scheduler.
