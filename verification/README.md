# f3sys: verified models of the kernel's state machines

f3sys is a small monolithic kernel in C. This project models the parts of it that keep state under failure,
concurrency and wrapping arithmetic, and proves what they keep. `dafny verify dfyconfig.toml` checks everything.

| files | what they model |
|---|---|
| `FatLayout`, `FatTable`, `FatCache`, `FatData`, `FatChainOps`, `FatChainIo`, `FatVolume`, `FatRun` | the FAT16 driver: boot sector, cluster chains, the write-back table cache, chain growth and shrinkage, files as byte strings, whole runs |
| `MsgSync` | synchronous calls: call, receive, reply, and everything that can go away under them |
| `MsgQueue`, `EventQueue` | asynchronous message queues with reserved reply slots; callback events, coalescing and deferred notifications |
| `Ksync` | the kernel mutex with its intrusive waiter and owner lists |
| `Kobj`, `VmRegions` | kernel objects, handles and reference counts; regions of a process' address space |
| `PageAllocator`, `UserHeap` | the kernel page allocator and the user-mode heap |
| `Pipe`, `Timers`, `TaskSwitch` | pipes, timers, task switching and callbacks |
| `Machine`, `Ring`, `Sequences`, `MsgCodes` | the block device and machine integers; circular buffers as sequences; small facts about sequences; limits and error codes of messages |

How the models are built: code that updates state in place is a class whose methods follow the source's branches and
loops, each proved against a function or relation on values; the laws are lemmas about those. Disk transfers and
allocations fail at any time (`Machine.Device` counts the failures, so "without I/O errors" is "the count has not
moved"). User-memory copies, allocator answers, liveness of tasks and the outcome of callbacks are parameters.

Ten modules go through whole sequences of operations: `FatRun` (from a sound volume), `Kobj`, `Ksync`, `MsgSync` and
`TaskSwitch` (from boot, with objects, tasks, threads, processes, mutexes and ports that come and go), `MsgQueue`,
`Pipe`, `Timers`, `UserHeap` and `VmRegions` (from a new channel, pipe, list, heap or address space). Each has a
relation that says what one operation does to the state and what it answers, a predicate `IsRun` on traces of states
(in `FatRun`, the clauses of `Run`), and, but for `Kobj`, whose runs are of values, a method `Run` that performs any
sequence and returns such a trace; the laws are lemmas about traces, for every state and every stretch.

The format follows the Microsoft FAT specification (fatgen103), sections "FAT Data Structure" and "FAT Type
Determination", for volumes of 512-byte sectors with fewer than 65525 clusters.

## What the code does not keep

Where a law turned out to hold only under a condition, the code is modelled as it is and the exact condition is
proved, for most with a lemma at a concrete input that fails.

- Writes and reads near 4 GB, whose end wraps. Every write is one of three kinds (`FatVolume.EveryWriteIsOneOf`).
  *Admissible* ones overwrite as they should. *Stray* ones start behind every cluster allocated for them: they fail,
  and leave a chain longer than its file if and only if anything was allocated (`StrayOutcome`, `StrayExamples`).
  *Lapped* ones start behind the end of the file but inside its clusters: they fill the chain to its end, and are the
  overwrite they should be if and only if no stale byte stood in the gap (`LappedOutcome`, `LappedExample`). A stray
  or lapped write takes a position behind the end of its file, and `fs_seek` gives out none: it takes a second open
  file through which the file is cut first, or a read that itself wrapped.
- A read returns stale bytes behind the end of the file if and only if its end wraps to a place inside the file and
  the file does not fill its last cluster (`ReadExactIff`, `WrappedReadExample`). It takes a file within one read of 4
  GB.
- Within one cluster of 4 GB the 32-bit cluster count wraps (`FatData.CountWraps`).
- `fat_get_info` accepts volumes with more clusters than FAT16 has, and ones that end beyond what 32-bit addresses
  reach; the layout is sound if and only if neither is the case (`LayoutSound`).
- The undo of a failed extension restores the table except when the old tail already named the first new cluster, or
  was itself marked free and handed out again after another cluster; both take a table damaged before
  (`UnwindRestoresIff`, `UnwindLeaksOnDamagedTable`).
- A synchronous call with a NULL buffer of positive length and no handles cannot be told from no message once it is
  stored: its client is left paused without a record (`MsgSync.Ipc.Call`, which says exactly when). The check that
  lets it pass asks whether address 0 is mapped for the process, so it takes a program that is linked there.
- A thread can be taken out of a synchronous call, or of a receive, without a result. A read of an empty pipe into a
  buffer that is not mapped registers the thread without making it wait (`Pipe.Read`), and a pipe wakes whoever is
  registered without a look at what it is paused for; its send or waiter slot stays behind. A timer, futex or dialog
  whose wait was cut short like that can do the same. Apart from the NULL buffer, a step keeps the invariant if and
  only if it is not such a wake (`FireKeepsIff`, `StrayWakeExample`), and a run is safe if no thread enters a call or
  a receive while it is on record anywhere (`GuardedRunsAreGood`, `ExactlyOnceUnderGuard`).
- A thread that waits for its messages to be read can be left without anybody bound to wake it, in exactly two ways:
  its own side has disconnected before it waits, or another thread of its process closes the port under it
  (`MsgQueue.WaitOnReceive`, `Close`, `DisconnectedWaitExample`, `SiblingCloseExample`).
- A handle that was closed is refused, until a later one in the same slot has the same 15 check bits: it answers to the
  old one if and only if a multiple of 2^15 - 1 handles was opened from the one to the other (`StaleHandleRefused`,
  `HandleComesRound`).
- A timer asked for exactly 2^31 ticks in the past is out of reach at the next tick (`OutOfReachExample`).
- A notification that finds a full queue of an idle task stays owed though its first event is then entered; the place
  is used at the next retry (`OwedBesideRoom`).
- `malloc` in the page allocator with a size within one page of 2 GB overflows an `int`, and may return the start of
  the heap without allocating it (`Memory.Malloc`); `free` with an address below the heap and a length that reaches
  into it leaves the hint above free blocks (`FreeKeepsHintIff`, `FreeBelowHeapExample`).
- The user heap hands out too little for the last seven sizes below 4 GB, and an `sbrk` increment of 2 GB or more
  moves the break down while the new block lies above it (`AllocationLargeEnough`, `Heap.Malloc`,
  `HugeRequestExample`).
- A mapping request near 4 GB passes the window check of `process_alloc_vm` by wrapping (`VmRegions.Wraps`,
  `WrappedRequestExample`). The hole is in that function: `process_map_kobj` is its only caller, and the sizes of
  shared memory, DMA buffers and device registers that it maps do not reach the wrapping range.

## Model

| member | source | states |
|---|---|---|
| `FatLayout.LayoutSound` | fat.c:26-77 | an accepted boot sector has a sound layout (tables and clusters sector-aligned, pairwise disjoint, inside the volume, no 16- or 32-bit quantity wrapping) if and only if its clusters are few enough for FAT16 and end by 4 GB; sound or not, in bytes, the FAT copies adjoin behind the reserved sectors, the root directory shares no byte with a table or a cluster, cluster 2 starts at the first sector behind it, clusters adjoin, the last one ends inside the partition, one more would not or has no FAT entry, and the largest file is as long as all of them |
| `FatLayout.AcceptedIff` | fat.c:38-58 | a boot sector is accepted if and only if no divisor is zero and at least one whole sector remains behind the root directory |
| `FatLayout.ClustersFill` | fat.c:60-66 | the clusters fill the data area as far as whole clusters, or the FAT copy, reach |
| `FatTable.ChainDistinct` | fat.c:157-162 | a chain that ends visits no cluster twice |
| `FatTable.ChainUnique` | fat.c:157-162 | the first cluster determines the chain |
| `FatTable.LongWalkIsCyclic` | fat.c:1189-1204 | pigeonhole: a walk that is still on a cluster after as many steps as there are data clusters is cyclic |
| `FatTable.SearchCannotFail` | fat.c:552-584 | while fewer clusters have been taken than were free, a free one remains at or after the search position |
| `FatTable.FreeFromChain` | fat.c:246-251 | freeing from the head of a chain zeroes exactly its entries |
| `FatTable.FreeFromReach` | fat.c:473-481 | on any table, cyclic or not, freeing stops and has zeroed every cluster the walk reaches |
| `FatTable.UnwindRestoresIff` | fat.c:235-252 | taking back a partial extension restores every entry if and only if nothing was linked; or the last cluster was in use and its entry did not name the first new cluster; or it was itself marked free and was not handed out after another |
| `FatTable.UnwindLinked` | fat.c:235-252 | the same for new clusters linked behind a last one that is none of them |
| `FatTable.UnwindLeaksOnDamagedTable` | fat.c:235-252 | a concrete damaged table on which the undo does not restore the entries |
| `FatTable.ExtendKeepsOwnership` | fat.c:552-607 | appending the lowest free clusters keeps all chains acyclic, end-marked, disjoint and covering exactly the entries in use |
| `FatTable.CutKeepsOwnership` | fat.c:446-492 | cutting a chain keeps ownership |
| `FatTable.DeleteKeepsOwnership` | fat.c:1444-1463 | deleting a file keeps ownership |
| `FatTable.CreateKeepsOwnership` | fat.c:657-741 | creating a file keeps ownership |
| `FatTable.ClustersConserved` | fat.c:222-227 | free, owned and bad clusters together are always all clusters |
| `FatTable.ExtendFreeCount` | fat.c:552-607 | an extension uses up exactly the clusters it adds |
| `FatTable.CutFreeCount` | fat.c:466-484 | a cut gives back exactly the clusters it removes |
| `FatTable.DeleteFreeCount` | fat.c:1447-1460 | a delete gives back exactly the chain |
| `FatCache.StoredEntry` | fat.c:164-182 | when the copies hold the table, each entry is its two bytes, low byte first, in every copy |
| `FatCache.FlushSyncs` | fat.c:184-215 | writing the dirty sectors of a range that covers every changed entry makes all copies equal the cached table |
| `FatCache.Cache.UpdateCluster` | fat.c:164-169 | an entry inside the volume is set and marked dirty; outside nothing changes |
| `FatCache.Cache.FlushWrite` | fat.c:171-182 | a run of sectors reaches every copy, and nothing outside the tables changes |
| `FatCache.Cache.FlushCache` | fat.c:184-215 | the run-coalescing flush, with its end clamped to the table, equals writing each dirty sector of the range on its own to every copy; marks in the range are cleared; it succeeds exactly when no transfer failed |
| `FatCache.Cache.FlushRange` | fat.c:184-215 | a flush over the touched range leaves no mark, and without I/O errors cache and disk agree |
| `FatCache.Cache.FreeClusters` | fat.c:222-227 | the count of free clusters |
| `FatCache.Cache.FindFree` | fat.c:574-576 | the lowest free cluster from a position on |
| `FatCache.Cache.FreeChain` | fat.c:1447-1460 | the freeing loop terminates on any table, equals the reference freeing, and its range covers every entry it touched |
| `FatCache.Cache.UnwindChain` | fat.c:235-252 | the undo equals its reference on any table |
| `FatData.CountFits` | fat.c:496-499 | the 32-bit cluster count of a size is the chain length max(1, ceil) whenever rounding up does not wrap |
| `FatData.CountWraps` | fat.c:496-499 | within one cluster of 4 GB the count wraps to 0 |
| `FatData.ZeroExtendedIsResized` | fat.c:743-809 | a chain zeroed from the old size to the new one reads as the byte string padded with zeros |
| `FatData.WriteIsOverwrite` | fat.c:811-939 | bytes laid over a zero-extended chain read as the byte string overwritten at the offset |
| `FatChainOps.WalkChain` | fat.c:508-514 | walking the recorded length ends on the last cluster of the chain |
| `FatChainOps.ZeroGap` | fat.c:516-550 | the stale rest of the last cluster is zeroed up to the new size, and no other cluster is touched |
| `FatChainOps.AllocateRun` | fat.c:552-617 | all or nothing: the needed clusters are the lowest free ones, ascending, zeroed and linked, on disk and in the cache; or after any failure every entry has its old value |
| `FatChainOps.ExtendChain` | fat.c:494-617 | the whole extension: refused exactly when too few clusters are free; data of all other clusters kept; the new bytes are zero |
| `FatChainOps.ShrinkChain` | fat.c:446-492 | the chain is cut to max(1, ceil) clusters and the rest is freed and flushed |
| `FatChainOps.CutByFreeing` | fat.c:466-481 | ending a chain and freeing what followed is a cut |
| `FatChainIo.SkipClusters` | fat.c:1120-1132 | skipping lands in the cluster and at the offset within it, or fails when the chain is too short |
| `FatChainIo.WriteClusters` | fat.c:856-904 | the bytes written replace exactly that stretch of the chain, up to the end of the buffer or of the chain |
| `FatChainIo.ReadChain` | fat.c:1107-1174 | a read returns exactly the stretch asked for, cut at the end of the chain |
| `FatChainIo.CollectChain` | fat.c:1205-1252 | reading a whole file returns the first bytes of its chain |
| `FatChainIo.CountClusters` | fat.c:1189-1204 | the cycle test is exact: it rejects every cyclic chain and no other, and counts the clusters of the rest |
| `FatVolume.Volume.UpdateInDir` | fat.c:398-444 | the directory entry is replaced, or on a failed transfer the files are as they were |
| `FatVolume.Volume.Resize` | fat.c:743-809 | the file reads as its old bytes cut or padded with zeros; it refuses exactly when clusters are short; every other file is unchanged |
| `FatVolume.Volume.Shrink` | fat.c:758-766 | a smaller size keeps the prefix |
| `FatVolume.Volume.Grow` | fat.c:767-773 | a larger size adds zeros, even over stale bytes |
| `FatVolume.Volume.ExtendFile` | fat.c:494-617 | an extension of a file leaves a chain at least as long as needed and every byte string as it was, zero-extended |
| `FatVolume.Volume.WriteAt` | fat.c:811-939 | the exact result code of every write; an admissible one overwrites at its offset and zero-fills any gap, no space exactly when clusters are short; what stray and lapped ones do; every other file is unchanged |
| `FatVolume.EveryWriteIsOneOf` | fat.c:811-939 | admissible, stray and lapped writes are all writes, and no two of these overlap |
| `FatVolume.StrayOutcome` | fat.c:811-939 | a write that starts behind every cluster allocated for it fails, and the volume stays sound if and only if nothing was allocated |
| `FatVolume.LappedOutcome` | fat.c:811-939 | a write whose end wraps and which starts behind the file inside its clusters keeps the volume sound and the file in front, fills the chain, and is the overwrite it should be if and only if no stale byte stands in its gap |
| `FatVolume.GapIff` | fat.c:516-550 | bytes laid behind a gap read as the overwrite of the byte string exactly when what the extension did not zero was zero before |
| `FatVolume.StrayExamples` | fat.c:811-939 | two concrete writes that add clusters and then fail |
| `FatVolume.LappedExample` | fat.c:811-939 | a concrete write that leaves a stale byte in front of itself |
| `FatVolume.Volume.ReadAt` | fs.c:551-600 | exactly the bytes that the 32-bit clamp and the walk along the chain return; nothing changes |
| `FatVolume.ReadExactIff` | fs.c:575-583 | they are that part of the byte string if and only if the end of the request does not wrap into the file, or the file fills its last cluster |
| `FatVolume.WrappedReadExample` | fs.c:575-583 | a concrete read that returns 52096 bytes where one is left |
| `FatVolume.Volume.ReadWhole` | fat.c:1178-1252 | the whole byte string; for an empty file, the whole chain |
| `FatVolume.Volume.Create` | fat.c:619-741 | a new empty file on the lowest free cluster; possible exactly when one is free and the directory has room |
| `FatVolume.Volume.Delete` | fat.c:1410-1466 | the file is gone, its clusters are free again, all other files are unchanged |
| `FatRun.Perform` | fat.c:743-939 | one operation without I/O errors is that operation on byte strings, with the exact result code, also of refusals, and the exact outcome of wrapped reads and lapped writes |
| `FatRun.Run` | fat.c:446-939 | every run of creates, writes, resizes, reads and deletes is, up to its first I/O error or stray write that adds clusters, a run on a map from files to byte strings, and keeps all invariants |
| `Ksync.OnePlace` | ksync.c:9-29 | in every state a task waits on at most one mutex, stands once in its queue, is paused and does not own it, and the mutex has an owner |
| `Ksync.OwnersAgree` | ksync.c:56-96 | owner fields and owned lists say the same |
| `Ksync.QueuedKeepsInv` | ksync.c:9-29 | queueing a task behind an owner keeps the invariant |
| `Ksync.GrantedKeepsInv` | ksync.c:76-96 | taking a free mutex keeps the invariant |
| `Ksync.WokenMeaning` | ksync.c:31-54 | a wake hands the mutex to the first waiter and makes it runnable, or frees it when nobody waits |
| `Ksync.ReleasedMeaning` | ksync.c:56-74 | a release is exactly this hand-over |
| `Ksync.Kernel.Wait` | ksync.c:9-29 | the linked waiter list after queueing is the old queue with the task at its end |
| `Ksync.Kernel.PopWaiter` | ksync.c:31-40 | the first waiter leaves the linked list |
| `Ksync.Kernel.Release` | ksync.c:56-74 | the released mutex goes to the head of its queue; all other mutexes and tasks are untouched |
| `Ksync.Kernel.Lock` | ksync.c:76-96 | claimed exactly when free, otherwise queued last and paused; a claim pauses nobody, and no other task or mutex changes |
| `Ksync.Kernel.Unlock` | ksync.c:98-103 | only the owner can release |
| `Ksync.Kernel.LeaveQueue` | ksync.c:112-131 | the dying task leaves the queue it stands in, whose order is otherwise kept |
| `Ksync.Kernel.CleanupTask` | ksync.c:112-139 | clean-up terminates; the task owns and awaits nothing; each mutex it held has gone to its first waiter, who runs again; every other task holds, awaits and is paused as before |
| `Ksync.NoBargingOnRelease` | ksync.c:31-74 | a release never lets a later waiter past an earlier one |
| `Ksync.NoBargingOnExit` | ksync.c:112-139 | nor does the end of a third task |
| `Ksync.NewTaskKeepsInv` | tasks.c:75-120 | a new task, also in the slot of one that was cleaned up, keeps the invariant |
| `Ksync.Kernel.Step` | ksync.c:76-139 | one lock, unlock, exit, new task or new mutex is the step it should be; the kernel panics exactly when a running task locks what it owns |
| `Ksync.Kernel.Run` | ksync.c:9-139 | every interleaving of these is a run of such steps, from boot or any sound state |
| `Ksync.RunKeepsInv` | ksync.c:9-139 | the invariant holds in every state of every run |
| `Ksync.FirstInFirstOut` | ksync.c:9-139 | over any stretch of any run, of two tasks that wait for a mutex and live, the later one does not get it before the earlier one has had it |
| `Ksync.StepKeepsAttentive` | ksync.c:31-139 | no step pauses a task that does not wait, and a hand-over, also by the end of an owner, wakes the new owner |
| `Ksync.NobodySleepsForNothing` | ksync.c:9-139 | from its start to its end a task is paused, in every state of every run, exactly while it waits for a mutex |
| `Kobj.OpenKeepsInv` | kobj.c:82-94 | opening a handle keeps both counters equal to the ledger |
| `Kobj.ReleaseKeepsInv` | kobj.c:100-105 | dropping a reference frees the object exactly when the ledger holds nothing else |
| `Kobj.LastReference` | kobj.c:75-80 | the last reference leaves nothing in the ledger, and the object is freed with its callbacks in order |
| `Kobj.CloseKeepsInv` | kobj.c:107-125 | closing a handle keeps the invariant, by which a device is stopped exactly when it has no handle left |
| `Kobj.MapKeepsInv` | tasks.c:1486-1488 | a mapping counts as one reference and no handle |
| `Kobj.UnmapKeepsInv` | tasks.c:1516 | removing it gives that reference back |
| `Kobj.PinKeepsInv` | kobj.c:96-98 | a reference held across a call that may yield is counted |
| `Kobj.UnpinKeepsInv` | kobj.c:100-105 | and given back |
| `Kobj.LookupFinds` | tasks.c:1346-1358 | the handle returned for a slot finds that slot again |
| `Kobj.BareIndexRefused` | tasks.c:1346-1358 | a slot number without its check bits is never accepted |
| `Kobj.Objects.Acquire` | tasks.c:1366-1380 | the first free slot gets the handle, for an open or a newborn instance; -1 if and only if there is no slot or no memory, and then nothing has changed |
| `Kobj.Objects.Release` | tasks.c:1382-1389 | only a valid handle is closed |
| `Kobj.Objects.CopyKobj` | tasks.c:1410-1426 | the receiver gets a new handle for the same object, or nothing has changed; each error code if and only if its cause comes first |
| `Kobj.Objects.FreeHandles` | msg.c:398-401 | releasing everything received restores the receiver's table and all counts |
| `Kobj.Objects.CopyHandles` | msg.c:462-499 | either every handle arrives, in a slot of its own and with nothing else changed, or the copy leaves no trace; each failure has its cause, which is the first in the order of the handles |
| `Kobj.ApplyKeepsInv` | kobj.c:54-125 | every operation on handles, mappings and pins keeps counters, ledger and callback order |
| `Kobj.RunKeepsLedger` | kobj.c:54-125 | in every state of every run ref_count is handles plus mappings plus pins, handle_count is handles, no two references share a uid, stop ran at most once and before free, and what was freed with a stop callback was stopped before; and each step does to the ledger what its operation promises |
| `Kobj.ApplyDoes` | kobj.c:54-125 | what each operation does to the ledger as sets, to the counters and to the callbacks, in full: create, open, close, map, unmap, hold, let go; an object goes exactly when nothing else refers to it, and its device stops with the last handle |
| `Kobj.CloseDoes` | kobj.c:107-125 | closing takes out that handle and no mapping or reference; the object goes if and only if no other handle, mapping or reference is left |
| `Kobj.DropDoes` | tasks.c:1508-1531 | unmapping takes out that mapping, frees the object if and only if nothing else refers to it, and stops nothing |
| `Kobj.SerialsCount` | kobj.c:88-90 | along a run the uid counter moves on by exactly one uid with check bits for each handle opened |
| `Kobj.StaleHandleRefused` | tasks.c:1346-1358 | in any run a handle that was closed is refused until at least 2^15 - 1 handles have been opened after it, whatever is in its slot by then |
| `Kobj.HandleComesRound` | tasks.c:1346-1358 | a later handle in the same slot answers to the old one if and only if a multiple of 2^15 - 1 handles was opened from the one to the other |
| `MsgSync.OneRecord` | msg.c:512-607 | a thread paused in a call has exactly one record in the whole system, on its own channel: a stored send or a live call uid |
| `MsgSync.OneWaiter` | msg.c:352-396 | a thread paused in a receive has exactly one active waiter slot in the whole system |
| `MsgSync.ResumedOnce` | msg.c:646-781 | across any step a thread leaves a call exactly when it is given exactly one result |
| `MsgSync.BeginKeepsCore` | msg.c:566-604 | starting a call keeps the invariant |
| `MsgSync.FinishKeepsCore` | msg.c:733-778 | ending a call with one result keeps the invariant |
| `MsgSync.ServeKeepsCore` | msg.c:659-684 | handing a stored send to a receiver keeps call uids unique |
| `MsgSync.ParkKeepsCore` | msg.c:352-372 | parking a receiver keeps slots unique, and no stored send is overlooked |
| `MsgSync.WakeKeepsCore` | msg.c:586-604 | waking a receiver empties its slot in the same step |
| `MsgSync.FreeKeepsCore` | msg.c:919-929 | freeing a channel leaves no dangling entry in a slot or a thread's list |
| `MsgSync.ReplyCodes` | msg.c:711-781 | a reply succeeds for both sides or fails for both |
| `MsgSync.FindSlot` | msg.c:352-372 | a waiter slot is found unless all belong to other live threads |
| `MsgSync.Ipc.FindWaiter` | msg.c:384-396 | the lowest slot whose thread still waits; only stale slots are given up |
| `MsgSync.Ipc.Call` | msg.c:512-607 | refused calls change nothing and return the first reason that applies; admitted ones meet the first waiting receiver or are stored, with the exact new state: no other thread, channel or waiter slot changes but stale slots in front of it; the invariant is kept if and only if the message is not a NULL buffer alone that has to be stored |
| `MsgSync.Ipc.MeetOrStore` | msg.c:566-607 | the second half of that |
| `MsgSync.Ipc.Receive` | msg.c:646-700 | the exact outcome: clients before it whose copy failed are resumed with that error, the first send that can be copied is served under a fresh uid, a failure on the receiver's side ends the scan with its code; with nothing deliverable the thread parks in the first vacant slot, or every slot belongs to another live thread; nothing else changes |
| `MsgSync.Ipc.WaitFor` | msg.c:352-372 | the parking: the first slot that is inactive or stale, and no other, or the limit when there is none |
| `MsgSync.Ipc.TakeStored` | msg.c:657-689 | the scan stops at the first channel in slot order whose copy succeeds or fails on the receiver's side; up to there exactly the clients of this port whose copy failed are told, and nothing else changes |
| `MsgSync.Ipc.FindCall` | msg.c:715-728 | finds the call if and only if one of the process's ports serves it |
| `MsgSync.Ipc.Reply` | msg.c:711-781 | the one client of that call is resumed once with the matching code; nobody else is touched; not found exactly when no own port serves the uid |
| `MsgSync.Ipc.CloseByServer` | msg.c:942-967 | the client's pending call fails and the server side is down, or the channel is freed |
| `MsgSync.Ipc.CloseByClient` | msg.c:968-995 | the record is dropped and the client side is down, or the channel is freed |
| `MsgSync.Ipc.Disconnect` | msg.c:998-1012 | the exact outcome from either side: the channel stays for the other side, or is freed with its slot when that had gone; exactly the client in a call on it is failed; a client that closes forgets it; nothing else changes |
| `MsgSync.Ipc.DestroyPort` | msg.c:1014-1053 | every client in a call through the port is failed once, every receiver on it woken once, nothing else changes |
| `MsgSync.Ipc.ClosePort` | msg.c:1055-1066 | the same through close_port, which only a thread of the owner may call |
| `MsgSync.Ipc.CloseOwnPorts` | msg.c:1149-1156 | all ports of an ending thread are destroyed despite the list shrinking under the loop |
| `MsgSync.Ipc.CleanupTask` | msg.c:1131-1157 | after a thread ends nothing waits on it, calls through it or serves for it; everybody who depended on it has been resumed once; its channels stay for servers that are up, its ports and their channels are gone, and nothing else has changed |
| `MsgSync.Ipc.Connect` | msg.c:127-200 | a new channel in a new slot or the first free one, possible exactly under the stated limits, with the first reason that applies if not, and nothing else changes |
| `MsgSync.Ipc.CreatePort` | msg.c:58-91 | a new port without channels or waiters in its process's list, possible exactly under the stated limits, and nothing else changes |
| `MsgSync.UnstoredBreaks` | msg.c:582-607 | a message that is only a NULL buffer leaves its client paused without a record once it is stored |
| `MsgSync.NewThreadKeeps` | tasks.c:75-120 | a new thread keeps the invariant and everybody's calls |
| `MsgSync.Ipc.Perform` | msg.c:58-1157 | what one operation of any thread, or one waker, does; it keeps the invariant if and only if it is neither a NULL buffer to be stored nor a waker that finds its thread in a call or a receive, and then it keeps everybody else's calls and results |
| `MsgSync.Ipc.Run` | msg.c:58-1157 | every interleaving of processes and threads that come, call, receive, reply, connect, disconnect, close ports, wait for other things, are woken and end is a run of such steps, from boot or any sound state, up to the first step that breaks the invariant |
| `MsgSync.RunKeepsInv` | msg.c:58-1157 | in every run the invariant holds up to the first step that breaks it, and no longer |
| `MsgSync.ExactlyOnceOverRuns` | msg.c:512-781 | over any stretch of any run without a breaking step or a new call of its own, a living thread that was in a call is still in it without a result, or has left it with exactly one |
| `MsgSync.FireKeepsIff` | fs.c:744-764 | a wake by a pipe keeps the invariant if and only if it does not find its thread in a call or a receive |
| `MsgSync.GuardedRunsAreGood` | msg.c:58-1157 | runs in which no thread enters a call or receive while a waker has it on record, and no NULL buffer is stored, are sound throughout |
| `MsgSync.ExactlyOnceUnderGuard` | msg.c:512-781 | exactly once, under that guard, which every thread can check before its call |
| `MsgSync.StrayWakeExample` | api.c:664-679 | a run in which a pipe write takes a client out of its call, without a result and with its send still stored |
| `Ring.WindowPush` | kqueue.h:72-84 | writing the slot after the window appends to it |
| `Ring.WindowPop` | kqueue.h:86-92 | advancing the head drops the first element |
| `MsgQueue.ExpectingAppend` | msg.c:300-330 | a queued request adds one expected reply |
| `MsgQueue.Queue.Push` | msg.c:315-326 | the ring queue grows by the message at its end |
| `MsgQueue.Queue.Pop` | msg.c:858-869 | and shrinks from its front |
| `MsgQueue.Channel.Send` | msg.c:239-349 | the exact result: accepted when connected, well-sized and there is room, where an owed reply needs none of its own, else the first thing that is wrong; the message joins its queue and nothing else changes; an owed reply never finds the queue full |
| `MsgQueue.Channel.Receive` | msg.c:812-898 | the exact result; the oldest message leaves its queue exactly when it is read, with the last-message flag and the release of a blocked sender |
| `MsgQueue.Channel.ServerReads` | msg.c:853-878 | a read request on a reserving port is now unanswered, so its reply slot stays reserved |
| `MsgQueue.Channel.WaitOnReceive` | msg.c:784-810 | a thread blocks only while its peer is connected and has something to read; when it blocks, somebody is bound to wake it if and only if its own side is connected |
| `MsgQueue.SiblingCloseExample` | msg.c:1055-1066 | the owner of a port that waits while another thread of its process closes the port stays paused on a channel that is gone |
| `MsgQueue.DisconnectedWaitExample` | msg.c:784-810 | a client that sends, disconnects and waits is paused on a channel that is no longer its own |
| `MsgQueue.Channel.Close` | msg.c:931-996 | a peer blocked on this side is let go; a thread that waits on the side which closes is not, and that is the only way in which a close leaves a thread without anybody bound to wake it |
| `MsgQueue.Channel.Perform` | msg.c:239-996 | what each operation does and answers, as a relation on states |
| `MsgQueue.Channel.Run` | msg.c:239-996 | every sequence of operations by both sides is a run of exactly these steps |
| `MsgQueue.StepIsSound` | msg.c:239-996 | every operation keeps queued plus held-back slots within bounds, and keeps somebody bound to wake each waiting thread if and only if it is neither of the two that strand one |
| `MsgQueue.RunIsSound` | msg.c:239-996 | so the slots held back are right and free in every state of every run |
| `MsgQueue.OwedReplyHasRoom` | msg.c:265-300 | in every state of every run a reply that is owed has a free slot, and is accepted while both sides are connected |
| `MsgQueue.Lossless` | msg.c:239-898 | over any stretch of any run, in each direction, what was queued and what was accepted since is what was received and what is queued, in this order |
| `MsgQueue.WaitersAreWoken` | msg.c:784-996 | over any stretch of any run without a stranding step every waiting thread can be woken, and the first such step leaves one that cannot |
| `KernelQueue.KQueue.Push` | kqueue.h:72-84 | refused exactly when full, otherwise appended, with indices that wrap at twice the capacity |
| `KernelQueue.KQueue.Pop` | kqueue.h:86-92 | the oldest element, refused exactly when empty |
| `KernelQueue.KQueue.Where` | kqueue.h:47-69 | the nth and the last element are found in the buffer |
| `KernelQueue.KQueue.Update` | kqueue.h:65-69 | changing an element in place changes only that position |
| `Events.QueueSubroutine` | tasks.c:955-1010 | the ring buffer refines the coalescing queue of events |
| `Events.EnqueuedKeepsOneEach` | tasks.c:985-995 | at most one message event per callback, port and channel |
| `Events.FlagsKept` | tasks.c:985-995 | flags are OR-ed, none is lost and none appears elsewhere |
| `Events.ScrollAndOrderKept` | tasks.c:968-984 | scroll deltas add up modulo 2^32 whether merged or not; events that are never merged keep their order |
| `Events.EnqueuedMeaning` | tasks.c:968-1007 | what becomes of an event, case by case: motion about the window of the last event leaves the latest position there, with scroll deltas added; flags join the first event of their channel and change nothing else of it; anything else goes to the end, and is refused if and only if the queue is full |
| `Events.Notifications.Notify` | msg.c:208-230 | a notification enters the callback, is queued with its flags, or stays owed, and then the queue is full or the task could not be entered |
| `Events.Notifications.NotifyBehind` | tasks.c:1032-1041 | to an idle task with events queued, it is queued or stays owed before the first of them is entered, with the exact queue and sides after that |
| `Events.OwedBesideRoom` | tasks.c:1032-1041 | there a notification refused by a full queue is owed though a place is free afterwards |
| `Events.Notifications.Retry` | msg.c:1068-1096 | a retry equals trying each owed notification once, in order; what is still owed is owed because the queue is full, and the task's flag says so |
| `Events.StillOwed` | msg.c:1068-1096 | after a retry a side is owed only if it was before and the queue is full; sides that were not owed are untouched |
| `Events.RetryKeepsFlags` | msg.c:1068-1096 | a retry moves flags from channels to events, and loses none |
| `Events.RetryExtends` | msg.c:1068-1096 | a retry leaves every queued event where it is, adds only flags and message events, and settles a side only by reporting all its flags or, without a callback, by forgetting that it is owed |
| `UserHeap.LiveDisjoint` | usr/lib/stdlib.c:21-71 | live allocations never overlap |
| `UserHeap.UseKeeps` | usr/lib/stdlib.c:28-46 | taking a block whole or split keeps order, bytes, coverage and all other allocations |
| `UserHeap.MergeKeeps` | usr/lib/stdlib.c:112-132 | merging keeps them too |
| `UserHeap.GrowKeeps` | usr/lib/stdlib.c:49-70 | a block from sbrk keeps the list sound if and only if the break reaches its end |
| `UserHeap.AllocationLargeEnough` | usr/lib/stdlib.c:15 | a request is rounded up to at least itself exactly for sizes up to 2^32 - 8 |
| `UserHeap.HugeRequestsShrinkTheHeap` | usr/lib/stdlib.c:49-50 | what sbrk does when the increment does not fit an int |
| `UserHeap.Heap.FindFree` | usr/lib/stdlib.c:98-110 | the first block that fits, or none does |
| `UserHeap.Heap.Malloc` | usr/lib/stdlib.c:21-71 | first fit, and the exact new list: the block whole, or cut to size if a header and more than 8 bytes are left over; sbrk only when nothing fits, and then one block at the old break; exactly one new allocation, or NULL and no change; the list stays sound if and only if the increment fits an int, was refused or was not needed |
| `UserHeap.Heap.Free` | usr/lib/stdlib.c:75-96 | exactly that allocation goes, bytes and coverage are kept, and no two adjacent free blocks remain |
| `UserHeap.Heap.Coalesce` | usr/lib/stdlib.c:112-132 | no two free blocks that touch remain |
| `UserHeap.HugeRequestExample` | usr/lib/stdlib.c:15-70 | a concrete request that takes the break down into a live allocation, and one that gets a block of no bytes |
| `UserHeap.Heap.Run` | usr/lib/stdlib.c:15-132 | from an empty heap, every sequence of allocations and frees is a run of exactly these steps, up to a request that the break does not survive |
| `UserHeap.RunIsHeaped` | usr/lib/stdlib.c:15-132 | after every operation of every run the blocks are in order, no two free ones touch, and allocations do not overlap |
| `UserHeap.LiveStays` | usr/lib/stdlib.c:15-132 | over any stretch of any run an allocation stays where it is, and as large, until it is freed |
| `UserHeap.BytesStay` | usr/lib/stdlib.c:15-132 | and no byte of the heap is lost |
| `PageAllocator.HintIsHarmless` | memory.c:65-92 | a search from the hint finds what a search from block 0 finds |
| `PageAllocator.FreeKeepsHintIff` | memory.c:25-39 | a free keeps the hint sound if and only if it starts inside the heap, frees nothing in it, or the hint was 0 |
| `PageAllocator.FreeBelowHeapExample` | memory.c:25-39 | a concrete free that leaves a free block below the hint |
| `PageAllocator.FreeUndoesMalloc` | memory.c:25-114 | freeing an allocation restores the table |
| `PageAllocator.Memory.Search` | memory.c:71-92 | the lowest run of free blocks from the hint on |
| `PageAllocator.Memory.Malloc` | memory.c:65-114 | the lowest run in the whole heap that covers the request and less than a page more, NULL exactly when there is none, and the new hint; and what a size that overflows the rounding gets |
| `PageAllocator.Memory.Free` | memory.c:25-49 | exactly the blocks of the range inside the heap become free, and the hint falls to the first if that is below it; when the hint stays sound |
| `PageAllocator.Memory.Reserve` | memory.c:11-20 | exactly the blocks of the range inside the heap become allocated |
| `VmRegions.ScanFits` | tasks.c:1463-1493 | the first wide enough gap is the lowest place in the window that is clear of all regions |
| `VmRegions.WindowSizesNeverWrap` | tasks.c:1457-1478 | sizes up to the window never wrap |
| `VmRegions.AddressSpace.Alloc` | tasks.c:1457-1495 | lowest fitting gap, failing only when no gap fits or memory runs out; regions stay aligned, ordered, disjoint and inside the window if and only if the 32-bit sums do not wrap |
| `VmRegions.PagesAddUp` | tasks.c:1449-1450 | the pages of all regions are as many as their sizes add up to |
| `VmRegions.AddressSpace.Find` | tasks.c:1498-1506 | the region holding an address, or none does |
| `VmRegions.AddressSpace.Unmap` | tasks.c:1508-1531 | the region goes and its mapped pages are no longer counted |
| `VmRegions.AddressSpace.Map` | tasks.c:1436-1455 | no_allocated is the number of pages mapped, also after a mapping that failed half-way, which leaves no trace; regions and pages stay sound if and only if the request does not wrap |
| `VmRegions.AddressSpace.MapRegion` | tasks.c:1448-1454 | its second half: all pages are mapped, or the region is given up with what was mapped |
| `VmRegions.TotalCovers` | tasks.c:1443-1444 | the pages mapped for an object cover it, its offset into the first page included, and less than a page more, unless the sum wraps |
| `VmRegions.WrappedRequestExample` | tasks.c:1457-1478 | a concrete request that no gap fits and that passes the check |
| `VmRegions.AddressSpace.Run` | tasks.c:1436-1531 | from an empty address space, every sequence of mappings and unmappings is a run of exactly these steps, up to a request that wraps |
| `VmRegions.RunCountsPages` | tasks.c:1436-1531 | in every state of every run regions are aligned, ordered and disjoint, exactly their pages are mapped, and these are as many as are counted |
| `VmRegions.RegionStays` | tasks.c:1436-1531 | over any stretch of any run a region stays until one of its addresses is unmapped |
| `VmRegions.UnmappedIsGone` | tasks.c:1508-1531 | after an unmapping no region holds the address |
| `VmRegions.UnmapKeeps` | tasks.c:1508-1531 | a region out of a sound list takes exactly its pages with it |
| `Pipe.WindowChunk` | fs.c:366-384 | a contiguous chunk is the front of what is buffered |
| `Pipe.WindowFill` | fs.c:387-406 | a chunk laid down behind the buffered bytes is appended |
| `Pipe.Pipe.Drain` | fs.c:366-384 | the oldest bytes, as many as wanted, buffered and mapped, through any wrap |
| `Pipe.Pipe.Fill` | fs.c:387-406 | as many bytes as fit, in order, through any wrap |
| `Pipe.Pipe.WakeReader` | fs.c:744-764 | a registered reader gets the oldest bytes, as many as it asked for, and is let go |
| `Pipe.Pipe.WakeWriter` | fs.c:766-786 | a parked writer's bytes go in, as many as fit, and it is let go |
| `Pipe.Pipe.Read` | fs.c:536-555 | the exact result, the bytes returned and those of a parked writer that go in behind; a reader is registered exactly when it asks for something on an empty pipe with a writer, and waits if its buffer is mapped |
| `Pipe.Pipe.Write` | fs.c:446-466 | the exact result, the bytes taken and those given to a waiting reader; the writer waits exactly when the pipe is full and it is not the kernel |
| `Pipe.Pipe.Run` | fs.c:446-786 | every sequence of reads, writes and closes is a run of exactly these steps |
| `Pipe.RunIsSound` | fs.c:446-786 | in every state of every run a registered reader faces an empty pipe and a parked writer a full one, so they never both wait |
| `Pipe.Lossless` | fs.c:366-786 | over any stretch of any run, what was buffered and what was taken from writers since is what was handed to readers and what is buffered, in this order |
| `Pipe.NeverBothParked` | fs.c:446-555 | a parked reader faces an empty pipe, a parked writer a full one, so never both |
| `Timers.UntilIsTrue` | events.c:14-16 | the wrapped difference is the true one for deadlines within 2^31 ticks |
| `Timers.InsertedOrdered` | events.c:32-59 | insertion keeps the order of deadlines, and of creation among equals |
| `Timers.Clock.Tick` | interrupts.c:552 | time passes without losing the order, across any wrap of the counter |
| `Timers.Clock.Add` | events.c:18-60 | the new timer, for that task and exactly that many ticks ahead, is listed once, behind those with its deadline; without memory it is dropped and nothing changes |
| `Timers.Clock.Check` | events.c:77-102 | exactly the due timers fire, in order, minus those whose task has ended or been replaced by then; none due remains, and exactly the timers that the callbacks asked for are added |
| `Timers.Clock.Interrupt` | interrupts.c:548-556 | one tick and a check: which timers leave the list, which of them fire, and which are added |
| `Timers.Clock.Run` | events.c:18-102 | every sequence of interrupts and of timers asked for in between is a run of exactly these steps |
| `Timers.ListedUntilDue` | events.c:18-102 | over any stretch of any run a timer is listed exactly until the first interrupt at or behind its deadline |
| `Timers.FiresWhenDue` | events.c:62-102 | in any run a listed timer is fired by that interrupt, if its task is there then, and by no other |
| `Timers.NoneSkipped` | events.c:62-102 | and when its time has passed, that interrupt has been |
| `Timers.FiredInOrder` | events.c:32-102 | what one interrupt fires is ordered by deadline, and by creation where deadlines are equal |
| `Timers.OutOfReachExample` | events.c:14-16 | a timer exactly 2^31 ticks in the past is not due at the next tick |
| `TaskSwitch.NobodyStarves` | tasks.c:547-560 | over any stretch of any run, a task that stays resumable runs within 16 ticks, whatever comes between them, unless that sets it back in turn |
| `TaskSwitch.StarvingExample` | tasks.c:547-642 | runs of any length in which directed switches before every tick keep a resumable task from ever running |
| `TaskSwitch.Cpu.NextTask` | tasks.c:547-560 | the first resumable task in round-robin order, or none is |
| `TaskSwitch.Cpu.SwitchTask` | tasks.c:565-601 | every task keeps its logical context and its live frame |
| `TaskSwitch.Cpu.SwitchTo` | tasks.c:603-642 | the same for a switch to a given task |
| `TaskSwitch.Cpu.Enter` | tasks.c:861-898 | entering a callback saves the interrupted context and builds the frame of its arguments |
| `TaskSwitch.Cpu.RunQueued` | tasks.c:923-953 | stale events are dropped and the queue refilled as they are; the first other one is entered, only from outside a callback, with the exact outcome when the task cannot run or has no room on its stack |
| `TaskSwitch.Cpu.CallSubroutine` | tasks.c:1012-1048 | the exact new state: entered at once, queued with coalescing and the bound, or the task crashes and the next one that can run does; callbacks never nest: in a callback the event is queued and the saved context stays |
| `TaskSwitch.Cpu.SubroutineEnd` | tasks.c:1050-1072 | ending a callback restores the interrupted context exactly, or enters the next one on top of it; then dropped notifications are retried, and a task that cannot go on yields to the next one that can |
| `TaskSwitch.Cpu.Deliver` | interrupts.c:736-739 | the exact outcome of delivering queued events on the return to user mode, and at the start of a yield or snooze |
| `TaskSwitch.Cpu.DropStale` | tasks.c:930-952 | dropping stale events equals its reference, with a retry after each |
| `TaskSwitch.DeliveryKeepsFlags` | tasks.c:930-952 | channel flags reach the callback or stay reported: dropping stale events and refilling the queue lose none |
| `TaskSwitch.DeliveryKeepsEvents` | tasks.c:930-952 | nor is an event lost that is not a message: only the first event that is not stale leaves the queue, and all others stay in order |
| `TaskSwitch.SkipsExactly` | msg.c:1098-1121 | what is skipped at the front: a message without flags for a channel that the task has left, or that has nothing to read and no flags to report, and nothing else |
| `TaskSwitch.Cpu.EndTask` | tasks.c:355-452 | the end of a task leaves every other task its context and frame |
| `TaskSwitch.CallWakes` | tasks.c:1012-1048 | whether its event is entered, queued or refused, a call leaves no enabled task snoozed |
| `TaskSwitch.IdleTaskIsEntered` | tasks.c:1021-1047 | a task that is in no callback, has nothing queued, is not held and has room on its stack is current and in the callback at once, also out of a snooze, with the arguments below its stack pointer and its registers kept aside |
| `TaskSwitch.NoRoomCrashes` | tasks.c:1043-1046 | one without room on its stack is crashed and no longer current |
| `TaskSwitch.RetryWakes` | tasks.c:1062-1068 | when a notification is owed at the end of a callback, its task does not stay snoozed |
| `TaskSwitch.Cpu.Launch` | tasks.c:195-219 | so does the launch of one, at once or for later |
| `TaskSwitch.Cpu.Run` | tasks.c:547-1072 | every interleaving of switches, callbacks, deliveries on return to user mode, user code, results, pauses, launches and exits is a run of steps with their exact outcome, in which a step changes no context but that of the task that runs or gets a result outside callbacks, and no frame but that of the task it concerns |
| `TaskSwitch.CallbacksAreTransparent` | tasks.c:861-1072 | over any stretch of any run without user code of its own outside callbacks, a task keeps its context, and outside callbacks it resumes with the very registers it had |

## Left out

- Drivers, port I/O, assembly, paging and ELF loading: hardware dependent; the disk is a byte array whose transfers may fail.
- Path parsing, 8.3 names, directory listing, `fat_rename`, `fat_new_dir` and directories: a file is named by its directory entry, kept as a map.
- FAT runs that go on after an I/O error: only the roll-back of an extension is characterised; a partial write can leave a chain longer than its size.
- FatRun.Run: stray writes that add clusters end a run, because they leave a chain longer than its file; `StrayOutcome` states what they do.
- FatVolume.Volume.Delete: the deletion of directories frees its chain in the same loop and is not modelled separately.
- MsgSync.Ipc.Call: the trap frame and the direct switch to the server are not modelled; task slots are identified by their uid, so `msg_get_task` is "still alive".
- MsgSync.Ipc.Receive: message bytes and receipts are abstract; how a copy ends is a parameter, and its handle half is `Kobj.Objects.CopyHandles`.
- MsgSync.Ipc.CleanupTask: the clean-up of a whole process (`msg_cleanup_process`) destroys its ports with `DestroyPort` and is not modelled separately.
- MsgSync.Ipc.Run: the limit of four threads to a process and the reuse of task slots are not modelled; uids are never used twice. Which pipe, timer, futex, dialog or channel a waker is, is left open: it is a number that a thread is on record under.
- Timers.Clock.Run: kernel callbacks add timers that are not due yet; otherwise the loop of `events_check` need not end.
- MsgQueue.Channel.Send: looking up port and channel by uid, and notifying the recipient, are not part of it; notification is `Events.Notifications`.
- The uid counters of calls and of object references wrap at 2^32 in the source and are unbounded here, which leaves the check bits of handles as they are; those of channels and ports end at `MSG_ERR_BASE` as there.
- Ksync.Kernel.Lock: the panic on locking outside a syscall is not modelled. A task that already waits cannot run, so it does not lock; the moment in which one that somebody else resumed pauses itself again is not a state of the model. What runs while a task is blocked is the interleaving of the other operations.
- Kobj.Objects.CopyHandles: the uid counter of references is not restored by a failed copy, nor is it in the source.
- UserHeap.Heap.Free: a header is recognised by its place in the list; the magic number of memory that is not a header is not modelled.
- UserHeap.Heap.Run: the program itself only raises the break, and no other caller of `sbrk` lowers it.
- UserHeap.Heap.Malloc: alignment of the returned address is left to `sbrk`, whose other callers the heap cannot see.
- VmRegions.AddressSpace.Map: how many pages the page directory could take is a parameter; the reference held by a region is counted in `Kobj`.
- Pipe.Pipe.Run: one reader and one writer per pipe, which live while they wait and whose buffers stay mapped; what a reader that was registered without waiting does to its own later waits is in `MsgSync`.
- Events.Notifications.Notify: what happens to the task that is entered or woken is `TaskSwitch`; the latch `wake_pending` for the next snooze is not modelled.
- Events.QueueSubroutine: all callers pass three arguments for the coalesced kinds, which is its precondition.
- TaskSwitch.Cpu.SwitchTask: tasks parked in the kernel (`kernel_esp`), page directories and kernel stacks are not modelled.
- TaskSwitch.Cpu.CallSubroutine: the arguments on the user stack are not modelled, only whether there was room for them.
- TaskSwitch.Cpu.EndTask: one thread; the end of a whole process is one such step for each of its threads.
- Window manager, terminals, GUI, user applications, futexes, sorting and string helpers: easy or plumbing next to the above. `usr/lib/map.c` is not a map after a removal and is not modelled.
