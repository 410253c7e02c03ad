# Verified models of four kernel components

A Dafny 4.11 project about the parts of this kernel whose correctness is hardest to see from the code.
`dafny verify dfyconfig.toml` checks all of it.

**Task protocol** (`TaskProtocol`, `TaskInvariant`, `TaskSteps`, `TaskTheorems`, `TaskCalls`,
`TaskHandle`, `TaskProgress`, `TaskWord`).  The async-task crate keeps eight flags and a reference count in one atomic word, on which a `Runnable`, a
`Task`, any number of `Waker`s and the running poll race.  The model is a state machine: one step is one
atomic operation, or one access to the future, the output or the awaiter cell, of one actor, so its runs
are all sequentially consistent interleavings.  Weak compare-exchanges may fail spuriously.  A theorem
about `Run(states, moves)` holds for every such run, of any length, with any number of wakers.
`TaskTheorems` says what no step breaks, `TaskCalls` and `TaskHandle` what each call has done when it is
over, and `TaskProgress` that it gets there.

**FAT32** (`FatChain`, `FatTable`, `FatFiles`, `Eviction`, `WriteBack`, `WriteBackSteps`,
`WriteBackTheorems`, `WriteBackProgress`, `CowBuffer`, `InodeCache`).  Cluster allocation and freeing are methods of a class
over the FAT; every operation that can fail in the code (loading a unit, copying a shared buffer) can
fail at any call, as a fixed but arbitrary function of the number of such operations before it decides;
and truncation and traversal, which do not hold the manager lock throughout, meet any
requests of other files in between.  That the FAT may be seen as a plain array is the theorem about the write-back
protocol, which is a state machine over users, writers, the manager lock and the sync task.  It covers
both caches of the crate: the FAT unit cache (several copies on the device, waking when the dirty set
gets its first element) and the data block cache (one copy, waking on each new pending block).

**easy-fs** (`EfsMap`, `EfsGrow`, `EfsInode`, `EfsFlat`, `EfsData`, `EfsBitmap`, `EfsSpace`, `EfsFiles`,
`EfsLayout`, `EfsImage`, `EasyFs`, `BlockCache`).  Blocks are byte sequences; index blocks are read and
written as little-endian words.  By the transparency of the block cache the other modules work on the
logical disk.  Bitmaps and inodes are values beside the data blocks; `EfsImage` says which bytes they are
on the device, in areas that `EfsLayout` shows disjoint.

**SmpCopy** (`SmpCopy`, `SmpProgress`).  A state machine over single loads, stores and read-modify-writes, with helpers
that live across jobs and may hold a cursor from an earlier one.

`Basics` and `Lists` hold what these share.

## Assumptions

- Entries 0 and 1 of the FAT are not free, entries are below 0x10000000, the FSInfo sector tells the
  truth at mount, and chains end in an entry that is not zero.
- The FAT copies on the device agree at mount.  Device writes take effect in the order they are handed
  over, and a read sees the writes handed over before it.
- Access numbers are drawn in increasing order and are not renewed during a replacement scan.
- easy-fs: files hold at most 28 + 128 + 128 * 128 blocks, and there are free blocks for the growth asked
  for.  `EasyFileSystem.Perform` answers `false` just when this or the file is missing, or when an empty
  write starts where the file has no block.  (Without free blocks the code panics, or hands out a block
  outside the data area: `EasyFileSystem.AllocData` says when.)

## Findings

- A replacement scan fails just when every clean block is in use, and then loses the block it popped last,
  so that marking that block dirty would panic (`Eviction.Replacer.MakeRoom`).  Runs do reach such a cache
  (`WriteBackTheorems.PinnedCacheIsReachable`); the write-back theorems are about runs up to the first
  such failure.
- A detached task whose only poll returns `Pending` without keeping a waker is released with its future
  never dropped (`TaskTheorems.FutureCanLeak`); `TaskTheorems.ReleasedContents` says exactly when the
  future has been dropped at release.
- `InodeCacheInner::append_last` is right just when its offset is the old length and the file was not empty
  (`InodeCacheInner.AppendLast`).  Both its callers in `raw_inode.rs` pass something else.  After the growth
  in `get_nth_block_alloc`, which passes the new length, a look-up of any of the new clusters gives the
  last of them (`InodeCacheInner.GrowAndGet`).  `append_block` passes the offset of the old last cluster,
  and for an empty file does not set the first cluster (`InodeCacheInner.AppendBlock`).
- `free_cluster` on a cluster of a longer chain leaves a link to a free entry (`FatChain.ReleasedInside`) and
  loses the other clusters (`FatFiles.ReleaseConserves`); its callers first truncate the chain to it.

## Model

| member | source | states |
|---|---|---|
| TaskTheorems.RunKeepsInv | code/dependencies/async-task/src/raw.rs:182-603 | the inductive invariant (who holds which right, reference sum, promised wakers) holds in every state of every run |
| TaskSteps.AnyStep | code/dependencies/async-task/src/raw.rs:435-603 | any step of any actor, given the invariant for the shared memory and that actor, keeps labels exclusive, the count exact, CLOSED and COMPLETED monotone, and the registered waker promised (what the steps of a call achieve is `TaskCalls.CallTakesEffect` and the rows after it) |
| TaskTheorems.RefcountIsExact | code/dependencies/async-task/src/raw.rs:334-373 | in every interleaving the count equals the references owned by live handles, the running poll and calls in progress; after release nobody is left who touches the task |
| TaskTheorems.EveryStepIsSound | code/dependencies/async-task/src/raw.rs:379-429 | no step uses released memory, polls or drops a dropped future, overwrites or reads an absent output, underflows the count or frees memory still referenced; the assertion in `register` holds |
| TaskTheorems.OneTokenHolder | code/dependencies/async-task/src/raw.rs:445-490 | at most one Runnable, run or call about to hand out a Runnable exists |
| TaskTheorems.TokenIffScheduledOrRunning | code/dependencies/async-task/src/state.rs:7-20 | SCHEDULED or RUNNING is set if and only if somebody holds the right to run the task |
| TaskTheorems.FlagsExclude | code/dependencies/async-task/src/state.rs:21-45 | COMPLETED excludes SCHEDULED and RUNNING, and COMPLETED without TASK implies CLOSED |
| TaskTheorems.EffectiveWakeIsKept | code/dependencies/async-task/src/raw.rs:195-309 | after a compare-exchange of a wake succeeded on a task neither completed nor closed, until the next poll, the task is finished, or SCHEDULED and RUNNING are both set, or SCHEDULED is set without RUNNING and there is a live Runnable or somebody about to hand one out |
| TaskCalls.CallTakesEffect | code/dependencies/async-task/src/raw.rs:182-603 | of every call of `wake`, `wake_by_ref`, `run`, `set_canceled`, the drop of a Runnable, and of a run after its future answered: whatever the other actors do, it is in its early part, or has made the step by which it takes effect, or the word shows that there is nothing for it to do |
| TaskCalls.ReadyCompletes | code/dependencies/async-task/src/raw.rs:492-535 | a run whose future returned `Ready` has, when it is past its loop, completed the task, with the future dropped and the output stored or consumed |
| TaskCalls.CompletedAfterReady | code/dependencies/async-task/src/raw.rs:486-520 | COMPLETED is set only in runs in which the future returned `Ready` before; the lemma names the step |
| TaskCalls.PendingEndsRun | code/dependencies/async-task/src/raw.rs:537-599 | a run whose future returned `Pending` has, when it is past its loop, made the exchange that clears RUNNING |
| TaskCalls.RunCallPolls | code/dependencies/async-task/src/raw.rs:435-478 | a call of `run` that is past its loop has started the poll, or the task is closed |
| TaskCalls.WakeCallWakes | code/dependencies/async-task/src/raw.rs:182-309 | a call of `wake` or `wake_by_ref` that is past its loop has made an exchange that marks the task, or the task is closed or completed |
| TaskCalls.NoLostWake | code/dependencies/async-task/src/raw.rs:182-309 | after a call of `wake` or `wake_by_ref` is past its loop, until the future is polled again, the task is finished, or SCHEDULED and RUNNING are both set, or SCHEDULED is set and there is a live Runnable or somebody about to hand one out |
| TaskCalls.WokenTaskHasRunnable | code/dependencies/async-task/src/raw.rs:182-310 | once all calls have returned, a task that was called to wake since its last poll is finished or has a Runnable |
| TaskCalls.ClosingCallCloses | code/dependencies/async-task/src/task.rs:180-226 | after `set_canceled`, or the drop of a Runnable, is past its loop, the task is closed or completed |
| TaskCalls.ClosedIsDropped | code/dependencies/async-task/src/runnable.rs:347-386 | a closed or completed task that is neither scheduled nor running has had its future dropped |
| TaskHandle.TaskFlagIffHandle | code/dependencies/async-task/src/state.rs:37-41 | TASK is set if and only if the Task, or a call on it, is there; there is only one |
| TaskHandle.HandleIsUsedUp | code/dependencies/async-task/src/raw.rs:182-246 | a handle that was run, scheduled, dropped, detached or woken by value is never a handle again: when the call is over its actor is done for good |
| TaskHandle.TaskIsGone | code/dependencies/async-task/src/task.rs:228-299 | when the drop of the Task, or `detach`, is over, TASK is cleared |
| TaskHandle.PollAnswers | code/dependencies/async-task/src/task.rs:316-391 | a call of `poll_task` goes on until it answers: `Pending` with its own waker registered while the task is not settled, or with the output, which is consumed by that step, or `None` on a closed task; with the last two no awaiter is left behind unless somebody is notifying it, and the call never wakes its own waker |
| TaskHandle.PollReachesOutput | code/dependencies/async-task/src/task.rs:346-388 | a call of `poll_task` on an open, completed task ends by handing over the stored output, whatever the other actors do |
| TaskHandle.CloneAddsWaker | code/dependencies/async-task/src/raw.rs:313-330 | cloning a Waker, or the waker that `run` or a Runnable offers, adds one Waker and changes no other actor |
| TaskHandle.FinishedAtRelease | code/dependencies/async-task/src/raw.rs:334-360 | the last Waker, or the Task, releases only a closed or completed task, whose future has been dropped; an open one is scheduled once more |
| TaskHandle.ScheduleKeepsTask | code/dependencies/async-task/src/raw.rs:379-395 | if `schedule` captures variables, whoever hands a Runnable out still holds a reference, so the task is not released during the call |
| TaskProgress.StepFalls | code/dependencies/async-task/src/raw.rs:195-603 | every step of an actor in a call, unless its weak compare-exchange fails spuriously, brings the end of the call nearer, in a measure of at most 26 |
| TaskProgress.CallFinishesAlone | code/dependencies/async-task/src/task.rs:180-391 | from every reachable state a call that steps alone is over after at most 26 steps; nobody else moves |
| TaskProgress.EveryCallCanFinish | code/dependencies/async-task/src/raw.rs:182-603 | from every reachable state the run can go on until every call is over |
| TaskProgress.OutputCanBeHad | code/dependencies/async-task/src/task.rs:316-391 | from every reachable state with the task completed and open and its handle free, `poll_task` gets the output within 27 steps |
| TaskTheorems.WokenRunHandsOver | code/dependencies/async-task/src/raw.rs:545-599 | after a run that was woken while polling ended Pending on an open task, in every interleaving until the next poll, the task is finished, or scheduled, not running, with a live Runnable or somebody about to hand one out |
| TaskTheorems.WokenWhileRunning | code/dependencies/async-task/src/state.rs:1-7 | SCHEDULED on a running task comes from a wake since that run began |
| TaskTheorems.FutureDroppedOnce | code/dependencies/async-task/src/raw.rs:492-560 | the future is dropped at most once in a run and never polled afterwards |
| TaskTheorems.OutputConsumedOnce | code/dependencies/async-task/src/task.rs:245-388 | the output is consumed at most once, by whichever of `run`, `poll_task` and `set_detached` |
| TaskTheorems.ReleasedContents | code/dependencies/async-task/src/raw.rs:417-429 | at release a completed task's output has been consumed, and the future has been dropped if and only if the task was completed or closed |
| TaskTheorems.ReleasedOnce | code/dependencies/async-task/src/raw.rs:362-373 | after the memory was released no actor is ever about to release it |
| TaskTheorems.FutureCanLeak | code/dependencies/async-task/src/raw.rs:591-594 | a run that ends with the memory released and the future alive |
| TaskTheorems.CellIsExclusive | code/dependencies/async-task/src/header.rs:46-145 | no two actors are ever both about to access the awaiter cell |
| TaskTheorems.ParkedWakerIsKept | code/dependencies/async-task/src/task.rs:316-391 | after `poll_task` returned Pending its waker has been woken, is in the cell, or is carried by an actor that will wake it; if the task settled meanwhile an actor is on the way to it |
| TaskTheorems.NoLostNotification | code/dependencies/async-task/src/header.rs:76-145 | once all calls have returned, a parked and unwoken Task would still answer Pending, and its waker is stored with AWAITER set |
| TaskWord.PackingIsFaithful | code/dependencies/async-task/src/state.rs:7-69 | comparing packed words is comparing flags and count, and adding REFERENCE adds one to the count |
| FatChain.ChainsMeet | code/fat32/src/fat_list/mod.rs:104-137 | two chains through one cluster go on alike |
| FatChain.ChainIsAcyclic | code/fat32/src/fat_list/mod.rs:104-137 | a chain visits no cluster twice |
| FatChain.CutChain | code/fat32/src/fat_list/mod.rs:158-165 | the chain left by an interrupted `free_cluster_at` is the part up to cid followed by a suffix of the original |
| FatChain.TruncatedCount | code/fat32/src/fat_list/manager.rs:402-412 | truncation raises the number of free entries by the number of clusters freed |
| FatChain.ForestAfterExtend | code/fat32/src/fat_list/manager.rs:364-366 | linking a free cluster behind a chain keeps all chains acyclic and disjoint |
| FatChain.StatusMeans | code/fat32/src/tools/mod.rs:59-69 | the tests of the list manager agree with `CID::status`: what is free, what links on, where it panics; and LAST is an end mark |
| FatTable.NextUnit | code/fat32/src/fat_list/manager.rs:333-336 | while the free count is positive the wrap-around scan cannot come back to its start |
| FatTable.ListManager.FindFree | code/fat32/src/fat_list/manager.rs:314-340 | the scan terminates without its panic at the first free entry, from the search position on, around the end of the table; it fails if and only if an operation failed meanwhile |
| FatTable.ListManager.AllocCluster | code/fat32/src/fat_list/manager.rs:309-346 | a free cluster becomes a chain of its own and the count falls by one; ENOSPC if and only if the count is zero, EIO if and only if an operation failed meanwhile; an error changes neither table nor count |
| FatTable.ListManager.AllocClusterAfter | code/fat32/src/fat_list/manager.rs:350-368 | the chain ending in cid is extended by a free cluster, both units become dirty, other chains stay; EIO if and only if an operation failed meanwhile, else ENOSPC if and only if the count is zero; an error leaves the table as it was |
| FatTable.ListManager.FreeCluster | code/fat32/src/fat_list/manager.rs:370-379 | any cluster is freed and its unit marked; the free count stays right if and only if it was a used data cluster; the file it belonged to loses its chain, other chains stay; it fails if and only if one of its two operations fails, and then changes nothing |
| FatChain.ReleasedInside | code/fat32/src/fat_list/manager.rs:370-379 | after any cluster of a chain was freed, no chain starts at its head |
| FatFiles.ReleaseConserves | code/fat32/src/fat_list/mod.rs:151-157 | freeing a cluster of a file loses no other cluster if and only if it was the only one |
| FatTable.ListManager.FreeTail | code/fat32/src/fat_list/manager.rs:421-442 | frees a prefix of the chain, marks every unit it changed, and stops at its end, out of permits or, if and only if an operation failed, on an error, with the rest of the chain intact |
| FatTable.ListManager.FreeClusterAt | code/fat32/src/fat_list/manager.rs:385-420 | at every stop the chain is cid followed by a suffix of the original, the count rose by the clusters freed, and other chains are unchanged; success means nothing is left and cid is LAST; an error means that an operation failed, and the other way round |
| FatFiles.FatList.FreeClusterAt | code/fat32/src/fat_list/mod.rs:165-181 | with any requests of other files between its rounds it terminates; the file loses its tail front to back, all of it on success, and the number returned is that of the clusters its rounds freed; it fails only when an operation of its last round failed; no cluster is lost or found |
| FatFiles.FatList.Truncate | code/fat32/src/fat_list/mod.rs:166-180 | one round: what the request means, for a quarter of the permits, but at least two and at most ten; a round that stops for want of permits has freed at least that many less one |
| FatFiles.TruncationGoesOn | code/fat32/src/fat_list/mod.rs:170-180 | in every history of requests, a file that only truncates is the original without the clusters its rounds freed |
| FatFiles.TruncationIsExact | code/fat32/src/fat_list/mod.rs:158-164 | each round of a truncation frees exactly the next clusters of the original tail, whatever other files did meanwhile, and changes nothing else but the link in front; a successful round freed the last |
| FatFiles.UndisturbedTruncation | code/fat32/src/fat_list/mod.rs:165-181 | rounds without other requests between them are one truncation of the original table |
| FatFiles.OthersLeave | code/fat32/src/fat_list/manager.rs:309-420 | a request of one file leaves the chain of every other, entry by entry, as it was |
| FatFiles.EndsStayMarked | code/fat32/src/tools/mod.rs:21-35 | if every file ends with an end mark, so it does after any request, new files and truncated ones included |
| FatFiles.FreedExactly | code/fat32/src/fat_list/mod.rs:158-165 | exactly the freed clusters turn FREE, and nothing but they and cid's entry changes |
| FatFiles.FatList.Travel | code/fat32/src/fat_list/mod.rs:109-137 | the closure is applied to each successor with its offset, in the order of the chain at the start, until it breaks, with any requests of other files between the reads; traversal terminates, and fails only if an operation failed meanwhile, always so when no one else asks for anything |
| FatFiles.FatList.Serve | code/fat32/src/fat_list/mod.rs:138-181 | over any sequence of requests, rounds of truncations and errors included, each does all or none of its work (a round may stop part way); it is refused just when it names no such file, fails with EIO just when an operation failed, and with ENOSPC just when it wanted a cluster and none was free; chains stay acyclic, disjoint and ended by end marks, the free count stays right, free clusters plus clusters in files is conserved, and a file that asks for nothing is not disturbed |
| Eviction.Replacer.MakeRoom | code/fat32/src/fat_list/manager.rs:261-308 | the scan fails, and breaks the partition of `search`, if and only if every clean block is pinned; it pops each block at most twice, but for the one a failed scan loses; otherwise it removes one unpinned clean block, filed before all that stay, leaving maps matched and contents alone |
| WriteBackTheorems.PinnedCacheIsReachable | code/fat32/src/fat_list/manager.rs:270-274 | a run that reaches a full cache with all its clean blocks in use, where the scan fails |
| WriteBackSteps.StepKeepsInv | code/fat32/src/fat_list/manager.rs:184-257 | every step of users, cache and sync task keeps the write-back invariant |
| WriteBackTheorems.CacheRefinesArray | code/fat32/src/fat_list/manager.rs:226-257 | in every run, what readers see is the initial array with the writes made to it, in order: hits, loads, evictions and sync rounds change nothing |
| WriteBackTheorems.EvictedIsSaved | code/fat32/src/block/inner.rs:126-173 | an evicted block equals the last write handed to the device, on every copy, and no writer is about to mark it |
| WriteBackTheorems.RoundIsStored | code/fat32/src/block/mod.rs:149-164 | when a round files a block as clean, its snapshot is on every copy, and is the cached block unless that changed since |
| WriteBackTheorems.QuietMeansSynced | code/fat32/src/fat_list/mod.rs:200-226 | with nothing dirty or about to be, every copy on the device is the table |
| WriteBackTheorems.DirtyIsTracked | code/fat32/src/fat_list/manager.rs:184-203 | the dirty set is the pending blocks, those of the round and the one being marked, which is not pending yet, so the insertion check succeeds |
| WriteBackTheorems.MapsAreInStep | code/fat32/src/fat_list/manager.rs:184-225 | search is exactly the disjoint union of clean and dirty under matching numbers of the blocks' own, and what is held or written is cached, so the unwrapped lookups succeed |
| WriteBackTheorems.CleanIsSaved | code/fat32/src/block/inner.rs:104-173 | a block neither dirty nor being written is on every copy as in the cache |
| WriteBackTheorems.FullCacheHasClean | code/fat32/src/fat_list/manager.rs:261-267 | the cache stays within its limit, dirty blocks within the permits, and a full cache has clean blocks |
| WriteBackTheorems.NoLostSync | code/fat32/src/fat_list/manager.rs:196-201 | a parked sync task with blocks pending has been woken or is woken by the marking in progress, under either waking rule |
| WriteBackProgress.OlderGoesFirst | code/fat32/src/fat_list/manager.rs:261-308 | in every run, no block is evicted while another clean block that is not in use was last used, and last filed, before its last use |
| WriteBackProgress.TouchIsNewest | code/fat32/src/fat_list/unit.rs:47-53 | a use of a block gives it a number above all numbers of the other blocks |
| WriteBackProgress.PendingIsSaved | code/fat32/src/fat_list/mod.rs:200-226 | a block that is pending when the sync task looks for work, and is not written afterwards, is on every copy, as the table has it, as soon as the task is out of the round, and ever after |
| WriteBackProgress.WrittenIsSaved | code/fat32/src/fat_list/manager.rs:184-222 | the last write to a block is on every copy as soon as the block is neither pending, nor in the round, nor in the hands of a writer |
| WriteBackProgress.SyncFalls | code/fat32/src/fat_list/mod.rs:200-261 | every step of the sync task lowers a number (which users raise by marking blocks): the snapshots, device writes and filings still due, and the turns of its loop |
| WriteBackProgress.SyncGoesOn | code/fat32/src/fat_list/mod.rs:200-261 | while no one is marking a block, the sync task can take a step that lowers the number, unless it sleeps and was not woken, and then nothing is pending |
| WriteBackProgress.SyncEndsAlone | code/fat32/src/fat_list/mod.rs:200-261 | left alone it parks within that number of steps, with nothing dirty and every copy equal to the table |
| WriteBackProgress.CacheCanDrain | code/fat32/src/fat_list/manager.rs:184-222 | from every reachable state the cache can go on, without users, until nothing is dirty and every copy is the table as it was |
| WriteBackProgress.WriteCanBeStored | code/fat32/src/fat_list/manager.rs:226-257 | from every reachable state with a permit, and with the block cached or room for it, a user can write the block and let it go, and every copy then is the table with that block changed |
| WriteBackProgress.PermitReturns | code/fat32/src/fat_list/mod.rs:138-157 | a permit taken and given back leaves everything as it was |
| CowBuffer.Buffer.Share | code/fat32/src/block/buffer.rs:39-51 | hands out the buffer's memory and counts the owner |
| CowBuffer.Buffer.AccessRw | code/fat32/src/block/buffer.rs:64-86 | gives memory no snapshot shares, with the same bytes, copied only if a snapshot is held; fails just when that copy is needed and there is no memory |
| CowBuffer.Buffer.Write | code/fat32/src/fat_list/unit.rs:60-68 | changes one byte of the buffer and no snapshot ever handed out |
| InodeCache.InodeCacheInner.TryGet | code/fat32/src/inode/inode_cache.rs:264-283 | an answer is the n-th cluster of the chain, or its length when that is not enough; and exactly when there is none |
| InodeCache.InodeCacheInner.UpdateList | code/fat32/src/inode/inode_cache.rs:216-231 | the new state, and that what a traversal saw keeps the cache true of the chain |
| InodeCache.InodeCacheInner.ListTruncate | code/fat32/src/inode/inode_cache.rs:233-248 | the cache is then true of the shortened chain |
| InodeCache.InodeCacheInner.AppendLast | code/fat32/src/inode/inode_cache.rs:323-330 | the cache is true of the longer chain if and only if the offset given is the old length and the file was not empty |
| InodeCache.LookFinds | code/fat32/src/inode/raw_inode.rs:153-167 | traversing a chain with the look-up closure ends at the offset asked for or at the last cluster, having seen every successor on the way, in order |
| InodeCache.InodeCacheInner.GetNthBlockCid | code/fat32/src/inode/raw_inode.rs:143-181 | the n-th cluster of the file, or the length of its chain, with any requests of other files during the traversal, and the cache stays true; after a growth that overcounts, the last cluster whichever new one is asked for; it fails only if an operation failed meanwhile, and needs none for what is cached |
| InodeCache.InodeCacheInner.GetListLast | code/fat32/src/inode/raw_inode.rs:183-209 | the last cluster and its offset, with the length known afterwards; it fails only if an operation failed meanwhile |
| InodeCache.InodeCacheInner.AppendBlock | code/fat32/src/inode/raw_inode.rs:309-322 | after every successful call, on an empty file too, the cache is not true of the longer chain |
| InodeCache.InodeCacheInner.Grow | code/fat32/src/inode/raw_inode.rs:293-303 | after growth by any number of clusters the furthest cluster is taken to be one position too far and the new ones are not listed |
| InodeCache.InodeCacheInner.GrowAndGet | code/fat32/src/inode/raw_inode.rs:269-308 | after a growth a new cluster is found if and only if it is the last |
| EfsMap.WordRoundTrip | code/easy-fs/src/layout.rs:67-68 | a word written into an index block is read back, and the other words stay |
| EfsMap.TotalBlocksCounts | code/easy-fs/src/layout.rs:103-118 | the closed formula counts data blocks and the index blocks they need |
| EfsInode.Volume.GetBlockId | code/easy-fs/src/layout.rs:123-146 | position i of a file of any length is element `Place(i)` of the list of all its blocks in the order they were given |
| EfsMap.PlaceIs | code/easy-fs/src/layout.rs:103-118 | that place in closed form: behind the data blocks before it and the index blocks needed so far |
| EfsFlat.DataIdInjective | code/easy-fs/src/layout.rs:123-146 | different positions hold different blocks |
| EfsFlat.DataIsNotIndex | code/easy-fs/src/layout.rs:123-146 | a data block is never an index block |
| EfsInode.Volume.IncreaseSize | code/easy-fs/src/layout.rs:147-218 | uses up exactly the blocks supplied, appending them in order to the blocks owned, and changes index blocks only |
| EfsFlat.GrowthAppends | code/easy-fs/src/layout.rs:147-218 | growth keeps earlier positions, and each new position i holds exactly the block of the supply at place `Place(i)` minus the blocks owned before |
| EfsInode.Volume.ClearSize | code/easy-fs/src/layout.rs:223-293 | returns all blocks owned, in the order they were added, as many as `total_blocks` says |
| EfsFlat.GrowAndClear | code/easy-fs/src/vfs.rs:174-183 | after any series of growths from empty, clearing returns the concatenation of all lists given |
| EfsData.DataWrite | code/easy-fs/src/layout.rs:351-360 | writing into a data block splices the file's bytes and leaves the map alone |
| EfsData.ReadAt | code/easy-fs/src/layout.rs:294-332 | the buffer takes in the file's bytes from the offset up to its own or the file's end, and keeps the rest |
| EfsData.WriteAt | code/easy-fs/src/layout.rs:334-370 | the data replaces the file's bytes from the offset on, and no block of another owner changes; it panics if and only if the offset is past the end or the block to start in cannot be looked up |
| EfsBitmap.Bitmap.Alloc | code/easy-fs/src/bitmap.rs:28-54 | sets and returns the lowest clear bit, and fails if and only if all are set |
| EfsBitmap.Bitmap.Dealloc | code/easy-fs/src/bitmap.rs:56-64 | clears the bit given and no other |
| EfsBitmap.SetBit | code/easy-fs/src/bitmap.rs:43-44 | adding the power of a clear bit sets that bit only |
| EfsSpace.LowestIsInside | code/easy-fs/src/efs.rs:129-132 | the block allocated is inside the data area if and only if not all blocks of the area are in use |
| EfsLayout.BitmapsCover | code/easy-fs/src/efs.rs:25-37 | the data bitmap has a bit for every data block, with one block fewer it would not have more bits than there are data blocks, and the inode area a slot for every inode bit |
| EfsLayout.InodeSlotsApart | code/easy-fs/src/efs.rs:111-119 | every inode has a slot of its own inside the inode area |
| EfsFiles.FileGrown | code/easy-fs/src/vfs.rs:77-92 | growing one file reads as zero behind its old end, leaves all other files alone and keeps bits, blocks and zeros in step |
| EfsFiles.FileFrame | code/easy-fs/src/layout.rs:123-146 | map and contents of a file depend on its own blocks only |
| EasyFs.EasyFileSystem.constructor | code/easy-fs/src/efs.rs:20-79 | a formatted volume is consistent, laid out as computed, with an empty root directory |
| EasyFs.EasyFileSystem.Open | code/easy-fs/src/efs.rs:81-103 | opening the device that a volume, after any operations, is stored on gives back the same inodes, bitmaps and file contents |
| EfsImage.SuperBytes | code/easy-fs/src/layout.rs:16-24 | the bytes of each field of the super block: magic, total, inode bitmap, inode area, data bitmap, data area, as little-endian words from byte 0 on, and zeros behind |
| EfsImage.InodeFields | code/easy-fs/src/layout.rs:70-78 | the bytes of each field of an inode in its slot: size, the direct blocks, and the two index blocks |
| EfsImage.BitmapBytes | code/easy-fs/src/bitmap.rs:4-18 | each 64-bit word of a bitmap is in its eight bytes, the lowest first |
| EfsImage.ImageReads | code/easy-fs/src/layout.rs:16-58 | super block, bitmaps and data read back from the device are those stored |
| EfsImage.ImageInode | code/easy-fs/src/layout.rs:70-78 | the inode read at its place on the device is the one stored |
| EfsImage.ImageWriteThrough | code/easy-fs/src/efs.rs:111-119 | setting an inode writes the 128 bytes of its slot and nothing else on the device |
| EasyFs.EasyFileSystem.AllocData | code/easy-fs/src/efs.rs:129-132 | hands out a zeroed unused block, inside the area if and only if one is free |
| EasyFs.EasyFileSystem.DeallocData | code/easy-fs/src/efs.rs:134-146 | zeroes and frees a block of no file, and no file changes |
| EasyFs.EasyFileSystem.IncreaseSize | code/easy-fs/src/vfs.rs:77-92 | pads one file with zeros up to the new size |
| EasyFs.EasyFileSystem.WriteFile | code/easy-fs/src/vfs.rs:164-172 | the file is padded with zeros as far as needed and then holds the data at the offset; no other file and no block outside the data area changes; it panics after that if and only if the lookup of the block to start in fails |
| EasyFs.EasyFileSystem.ReadFile | code/easy-fs/src/vfs.rs:159-162 | reads the file's contents |
| EasyFs.EasyFileSystem.ClearFile | code/easy-fs/src/vfs.rs:174-185 | the file is empty, its blocks are zero and free, no other file changes |
| EasyFs.EasyFileSystem.PerformAll | code/easy-fs/src/vfs.rs:159-185 | over any sequence of operations on any files the volume holds exactly what a list of byte sequences would, refusals included, whatever blocks were chosen; the set data bits stay the disjoint union of the files' blocks, and no block outside the data area changes |
| BlockCache.BlockCacheManager.GetBlockCache | code/easy-fs/src/block_cache.rs:87-117 | hands out the one entry of a block without changing what readers see; fails if and only if the block is not cached and all sixteen entries are in use; entries in use stay |
| BlockCache.BlockCacheManager.MakeRoom | code/easy-fs/src/block_cache.rs:96-107 | drops the first entry not in use, written back if modified, and never one in use |
| BlockCache.BlockCacheManager.Modify | code/easy-fs/src/block_cache.rs:56-58 | changes the bytes given of its own block only |
| BlockCache.BlockCacheManager.SyncAll | code/easy-fs/src/block_cache.rs:134-139 | makes the device what readers see |
| SmpCopy.RunKeepsInv | code/ftl-util/src/faster.rs:102-151 | the invariant over owner, cursor, counter and helpers holds in every run |
| SmpCopy.CopyIsComplete | code/ftl-util/src/faster.rs:116-120 | when `wait` sees zero the destination equals the source, and every cell was claimed exactly once |
| SmpProgress.NextCellIsCopied | code/ftl-util/src/faster.rs:131-151 | while cells are left, a helper that steps alone copies exactly the next one in `cell + 6` steps: the cursor moves by one, the cell is done, the counter falls by one and the words of the cell are those of the source |
| SmpProgress.HolderFinishes | code/ftl-util/src/faster.rs:146-150 | a helper that has claimed a cell, stepping alone, finishes just that cell |
| SmpProgress.JobCanFinish | code/ftl-util/src/faster.rs:115-119 | from every state of a running job with a helper, helper steps can bring the counter to zero |
| SmpProgress.JobIsPublished | code/ftl-util/src/faster.rs:102-114 | `init` publishes the whole job: all fields stored, cursor zero, the counter at the number of cells, memory untouched |
| SmpProgress.CopyCanBeDone | code/ftl-util/src/faster.rs:102-119 | whenever no job runs, any valid copy can be made: in the end the owner is free again, the destination holds the source and the rest of memory is as it was |
| SmpCopy.WaitCountsUnfinished | code/ftl-util/src/faster.rs:131-151 | the counter equals the unfinished cells, and each claimed unfinished cell has exactly one helper |
| SmpCopy.NoClaimBetweenJobs | code/ftl-util/src/faster.rs:131-145 | a helper with a stale cursor claims nothing and changes nothing between jobs |
| SmpCopy.HelpersWriteOnlyDestination | code/ftl-util/src/faster.rs:146-150 | helpers write only the destination of the running job |
| SmpCopy.PublishesIffSixteenBits | code/ftl-util/src/faster.rs:98-114 | `init` publishes cursor zero and the given end if and only if the end fits sixteen bits |

## Left out

- async-task: the panic `Guard`, memory layout, memory orderings weaker than sequential consistency, the abort on reference count overflow, `spawn_local`, and a waker borrowed by other threads during a poll.
- TaskProgress: a call is over in a bounded number of steps when it steps alone and its weak compare-exchanges do not fail spuriously; nothing is said about fairness between actors. The same holds for `WriteBackProgress` and `SmpProgress`: they show that runs can go on to the end, and bound the steps of the sync task and of a helper alone.
- TaskTheorems.FutureDroppedOnce: at most once, not exactly once, because a detached task can be released with its future alive.
- SmpCopy: the owner's own `run` inside `wait` is one more helper; the unrolled copy routines of the same file are not modelled.
- WriteBack: runs end at the first failed replacement scan; the FSInfo sector's own sync states, `close`, errors of the device during a write, `get_block_init`, `release_block`, `wirte_block_fast` and `try_release_free` are not modelled.
- FatFiles: requests of the same file do not overlap, as its inode is held exclusively while it changes.
- FAT32: `FatList::get_next` with `ListIndex`, the inode manager, directories, files, names and the boot sector.
- InodeCache: `get_almost_last_block`, `get_last_block`, the last block kept by the inode, and detaching.
- easy-fs: directory entries (`create`, `find`, `ls`), the type of an inode, and locking.
- EasyFs.EasyFileSystem.WriteFile: not for more than a file or the volume can hold, where the code panics or takes a block outside the data area.
- Block devices, drivers, the console, system calls and the remaining crates.
