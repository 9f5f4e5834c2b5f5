# A verified model of three systems projects

This project models, in Dafny, the cores of three programs and proves what they are for.

**The demand pager** (`Pager*.dfy`). Many arenas share a few physical frames: a pinned zero page with copy on write,
a second-chance clock, eager swap reservation, reference and dirty bits kept in software, and file blocks whose owner
sets move between memory and disk. `PagerState` holds the tables and the transitions, `PagerInvariant` what they keep,
`PagerSteps` that they keep it, `PagerClock` and `PagerOrder` the eviction order, `PagerFlat` the memory a user is promised,
`PagerRefine` and `PagerRun` that the pager is that memory, `PagerHistory` what every reply must be in the light of the
calls before it, and `Pager` the code's own loops over mutable tables.

**The thread library** (`Thread*.dfy`). One CPU, a ready queue, hand-off mutexes, condition variables, join, the
three-way `swap3`, and stacks that are freed by whoever runs next. A section with interrupts disabled is one step, a
timer interrupt is a yield between any two. `ThreadState` holds the tables and the sections, `ThreadInvariant`,
`ThreadQueues`, `ThreadMutexes`, `ThreadSwap` and `ThreadSteps` what they keep, `ThreadRun` the claims about every run,
`ThreadCalls` what each call does to the order of threads, `ThreadReturns` what holds when a call returns, and `Threads`
the library as methods that update the tables in place.

**The file server** (`Fs*.dfy`). Inodes, tables of eight directory entries, a free set, and a mutex per path taken hand
over hand. `FsDisk` says what tree a disk is, `FsUpdate`, `FsLink` and `FsUnlink` what each write does to it, `FsTree`
what a request should do. `FsSteps` is the server with any number of requests under way, one step per lock operation,
visit to the free set or disk write; `FsInvariant`, `FsSafety`, `FsDelete`, `FsRefine` and `FsRun` lead to
linearizability, `FsHistory` to what every reply must be in the light of those before it, `FsProgress` to answers for
all, `FsClaims`, `FsLocks` and `FsShape` to crashes, locks and blocks. `FsPath`, `FsScan` and `FsSerial` carry
`FsServer`, the handlers and the start-up scan as the code writes them, one request after the other; `FsBoot` joins the
scan to the runs. `FsExample`, `FsLost` and `FsRace` are concrete runs.

`Wrappers` holds what all of them use. `dafny verify dfyconfig.toml` checks the whole project.

Choices the code leaves open are nondeterministic: the first element of an unordered set, the interleaving of requests
or threads, the failure of a file read. Nothing bounds the number of processes, threads, requests, blocks or steps.

Where the code and its documentation differ, the code is followed: `vm_create` ignores the parent process, so every
arena starts empty.

Three expected properties are false of the code; each has a run that shows it and its exact condition.

- The free set is what the disk does not reach. A create that takes a block for a table and finds none for the inode
  loses the first: `FsLost.LosesBlock`. `FsServer.FileServer.Create` loses a block if and only if the create is allowed,
  the directory has no unused entry and fewer than 124 tables, and exactly one block is free; between requests the
  property holds if and only if no block has been lost (`FsServer.FreeIffNoneLost`, `FsShape.FreeAtRest`).
- No free block is part of what the disk shows. A delete gives blocks back before it writes:
  `FsExample.FreedWhileReached`. With requests one at a time the property holds if and only if no delete is between the
  two (`FsShape.FreeOnDisk`).
- A crash leaves a tree. It does with requests one at a time (`FsClaims.CrashAtomic`), and with any requests under way
  while no delete is between the two (`FsClaims.DiskShowsTree`); but another request may take a block that such a
  delete has given back, and write to it: `FsRace.CrashLeavesNoTree`. A write is harmless, whatever it writes, if and
  only if the disk does not lead to the block (`FsRace.HarmlessExactly`).

## Model

| member | source | states |
|---|---|---|
| PagerRun.PagerIsFlatMemory | virtual memory management/vm_pager.cpp:19-380 | From the state vm_init leaves, every run of creates, switches, exits, maps, loads, stores and failing file reads gives the replies, and leaves the memory, of the flat machine: a load returns the last byte stored to that private page (zero if none) or by any process to that file block, and no fault, eviction or choice of set element shows. |
| PagerHistory.EveryReply | virtual memory management/vm_pager.cpp:19-380 | Every reply of such a run is what the calls and accesses before it call for, with no state at all: a load finds the last byte that its process has stored at the address since the page was mapped, or a literal zero byte if there was none, or for a file block the last byte that any process has stored there, or what the file holds; a map gives the next page of the arena exactly while there are fewer than 4096 and, for a private page, the swap file has room for one more; an access faults exactly if nothing is mapped there that can be read. |
| PagerHistory.FreshPage | virtual memory management/vm_pager.cpp:56-80 | Every byte of a page that has just been mapped privately is zero. |
| PagerHistory.StringExactly | virtual memory management/vm_OS.cpp:178-221 | A string in memory is the bytes before the first zero byte. |
| PagerRun.RunRefines | virtual memory management/vm_pager.cpp:36-380 | The same from any state that satisfies the invariant. |
| PagerRun.StepRefines | virtual memory management/vm_pager.cpp:36-380 | Each single step of the pager is the step of the flat machine with the same reply, and keeps the invariant. |
| PagerRun.FailedReadRefines | virtual memory management/vm_pager.cpp:305-316 | A file read may fail at any fault; room may have been made, and flat memory and the invariant stay. |
| PagerRun.ReadRefines | virtual memory management/vm_OS.cpp:180-189 | Bringing in one page of a file name changes nothing in flat memory. |
| PagerRefine.FaultRefines | virtual memory management/vm_pager.cpp:187-373 | A fault on a page whose bit is clear leaves flat memory as it is, succeeds exactly when the page can be accessed, and then the access that faulted is enabled. |
| PagerRefine.MakeRoomSpec | virtual memory management/vm_OS.cpp:233-348 | An eviction, whatever it picks, loses no page and no file block, and leaves the frame it names free. |
| PagerRefine.WriteBack | virtual memory management/vm_OS.cpp:259-345 | The victim is written to its block if and only if it is dirty or has no block yet. |
| PagerRefine.PickExists | virtual memory management/vm_OS.cpp:225-236 | The assertions of evict_pages, get_virtual_owner and vm_fault never fail: there is always a frame, an owner and a swap block to pick. |
| PagerRefine.FreeSwapBlock | virtual memory management/vm_OS.cpp:294-301 | Eager reservation: a page that never had a swap block finds a free one when it must leave memory. |
| PagerRefine.PokeFlat | virtual memory management/vm_pager.cpp:330-366 | A store to an enabled page changes that private page, or that file block for all its owners, and nothing else. |
| PagerClock.SweepSpec | virtual memory management/vm_OS.cpp:237-257 | The eviction loop's victim and the order it leaves are those of second chance: the first unreferenced frame in clock order, or else the old front. |
| PagerClock.SweepBits | virtual memory management/vm_OS.cpp:238-254 | Exactly the frames that were passed lose their reference, and the victim has none. |
| PagerClock.TicksSpec | virtual memory management/vm_OS.cpp:238-254 | After each number of turns up to the length of the clock the clock is rotated by it, only the passed frames' entries have aged, and the invariant holds. |
| PagerOrder.ClockAfterFault | virtual memory management/vm_pager.cpp:247-281 | A frame that a fault fills goes to the back of the clock and counts as referenced, behind the frames in the order second chance leaves; a fault that fills none leaves the clock and the free frames alone. |
| PagerOrder.ClockAfterExit | virtual memory management/vm_OS.cpp:361-376 | When a process goes its frames become free, and the others stay in the clock in their order. |
| PagerOrder.ClockKept | virtual memory management/vm_pager.cpp:36-83 | Creating, switching and mapping a private page take no frame and leave the clock as it is. |
| PagerInvariant.CheckConsistent | virtual memory management/vm_OS.cpp:38-130 | Every assertion of check_consistent, which the code keeps commented out, follows from the invariant all runs keep: owners of one set agree, and the enable bits are what the software bits say. |
| PagerInvariant.FrameKind | virtual memory management/vm_OS.cpp:225-230 | The owners of a frame in the clock are one private page, or all the owners of one file block. |
| PagerInvariant.InitInv | virtual memory management/vm_pager.cpp:19-34 | vm_init establishes the invariant. |
| PagerSteps.ExpelSwapInv | virtual memory management/vm_OS.cpp:259-321 | Evicting a private page keeps the frame, owner, bit, contents and swap invariants. |
| PagerSteps.ExpelFileInv | virtual memory management/vm_OS.cpp:259-346 | Evicting a file page keeps them. |
| PagerSteps.CopyZeroInv | virtual memory management/vm_pager.cpp:229-263 | The first write to a page that shares the zero page keeps them. |
| PagerSteps.SwapInInv | virtual memory management/vm_pager.cpp:266-296 | Bringing a private page in keeps them. |
| PagerSteps.FileInInv | virtual memory management/vm_pager.cpp:301-370 | Bringing a file block in for all its owners keeps them. |
| PagerSteps.MapSwapInv | virtual memory management/vm_pager.cpp:48-83 | Mapping a private page keeps the whole invariant; the reserved pages never exceed the swap file. |
| PagerSteps.MapFileInv | virtual memory management/vm_pager.cpp:99-183 | Mapping a file block keeps it, whichever owner the new entry copies its bits from. |
| PagerSteps.DestroyInv | virtual memory management/vm_OS.cpp:350-394 | Releasing the pages of a process one by one keeps it, frames and swap blocks going back. |
| PagerState.AddressSplit | virtual memory management/vm_OS.cpp:137-153 | Inside the arena an address is its page and offset, in the truncated arithmetic of the code. |
| Pager.OSPager.constructor | virtual memory management/vm_pager.cpp:19-34 | The loops of vm_init fill the two free sets; every byte of the pinned frame is zero. |
| Pager.OSPager.VmCreate | virtual memory management/vm_pager.cpp:36-40 | A new process has an empty arena, whoever its parent is. |
| Pager.OSPager.VmSwitch | virtual memory management/vm_pager.cpp:42-46 | Only the current process changes. |
| Pager.OSPager.VmMap | virtual memory management/vm_pager.cpp:48-185 | The result and the memory are those of the flat map, for a file with the name read through the faults it causes; or a file read failed on the way, and nothing is mapped. |
| Pager.OSPager.VmFault | virtual memory management/vm_pager.cpp:187-373 | The loops over owner sets do what the fault transition says: flat memory stays, and 0 is returned exactly when the page can be used and no file read it needs fails. |
| Pager.OSPager.VmDestroy | virtual memory management/vm_pager.cpp:375-380 | The destructor's loop releases every page; in flat memory the arena is gone and its reservation is back. |
| Pager.OSPager.EvictPages | virtual memory management/vm_OS.cpp:233-348 | The three branches, on whichever owner is first, are one eviction of the second-chance victim. |
| Pager.OSPager.RunClock | virtual memory management/vm_OS.cpp:237-254 | The loop ends, and where the second-chance function says. |
| Pager.OSPager.ReadCString | virtual memory management/vm_OS.cpp:156-222 | The result is exactly the NUL-terminated string at that address of flat memory, across pages and through the faults it causes; there is none exactly if a byte of it is outside the arena or a backing read fails. |
| Pager.OSPager.UserLoad | virtual memory management/vm_pager.cpp:187-226 | A load that consults the enable bit and faults when it is clear returns flat memory's byte, or a file read has failed. |
| Pager.OSPager.UserStore | virtual memory management/vm_pager.cpp:187-263 | A store so made writes flat memory's byte, or a file read has failed. |
| ThreadRun.Swap3Cycles | thread and concurrency primitives/thread.cpp:55-113 | In every run each swap3 call that has returned has its cyclic predecessor's message (third to first, first to second, second to third), also when cycles overlap. |
| ThreadReturns.Swap3Returns | thread and concurrency primitives/thread.cpp:55-113 | In every run a swap3 call that has returned has an answer, and it is the right one: of each three calls in turn the first has the third's message, the second the first's, the third the second's. |
| ThreadReturns.Swap3NoneLost | thread and concurrency primitives/thread.cpp:75-93 | In every reachable state each swap3 call has its answer or its thread is still in it. |
| ThreadRun.MutualExclusion | thread and concurrency primitives/mutex_impl.cpp:10-80 | Two threads between lock and unlock of one mutex are the same thread, and it is the holder. |
| ThreadReturns.LockReturns | thread and concurrency primitives/mutex_impl.cpp:10-41 | In every run a lock, or a wait that locks again, that has returned has the mutex. |
| ThreadReturns.SectionsExclude | thread and concurrency primitives/mutex_impl.cpp:10-80 | In no run are two threads between the return from lock and the release, by unlock, wait or the thread's end, of one mutex. |
| ThreadReturns.JoinReturns | thread and concurrency primitives/thread_impl.cpp:107-136 | In every run a join that has returned has waited until its thread was done. |
| ThreadReturns.WaitReturns | thread and concurrency primitives/cv_impl.cpp:22-59 | In every run a thread that waits for a condition runs again only after a signal or broadcast of it, and all it can do then, unless it is preempted, is to take its mutex. |
| ThreadCalls.CallMoves | thread and concurrency primitives/thread.cpp:29-53 | For every call: who becomes ready, in which order, and where the caller goes. The ready queue is first come first served; a caller that leaves the CPU leaves it to the front; the other queues gain at the back and lose from the front. |
| ThreadCalls.FirstComeFirstServed | thread and concurrency primitives/thread.cpp:42-45 | A ready thread is run after exactly those who were ready before it. |
| ThreadCalls.CallPasses | thread and concurrency primitives/mutex_impl.cpp:14-80 | For every call and mutex: the holder's unlock or wait frees the mutex or makes the first waiter its holder, as its one new grant; lock on a free mutex makes the caller its holder; a thread that ends leaves its mutexes taken without a holder; nothing else changes whose a mutex is. |
| ThreadCalls.UnlockHandsOver | thread and concurrency primitives/mutex_impl.cpp:56-80 | unlock succeeds exactly for the holder: the mutex is no longer its, it is free or the first waiter's, and that waiter is at the back of the ready queue; for anyone else nothing changes. |
| ThreadCalls.CallGoesOn | thread and concurrency primitives/thread.cpp:47-93 | A thread goes on where it stopped: it returns from lock inside, from swap3 with its answer, and from a condition to take its mutex. |
| ThreadRun.GrantedInOrder | thread and concurrency primitives/mutex_impl.cpp:10-80 | Mutexes are granted in the order of the lock calls, preemption and condition variables included; a free mutex has no holder and no waiter; the holder is the last one granted, and it and the context's set agree. |
| ThreadRun.OrphanedExactly | thread and concurrency primitives/ucontext_wrapper.cpp:4-10 | A taken mutex has lost its holder exactly when the thread it was last granted to has been freed. |
| ThreadRun.ThreadsConserved | thread and concurrency primitives/thread_impl.cpp:10-146 | Every thread ever made is in exactly one place or has finished and been freed, once; its flag and join queue exist exactly while it executes, and agree with its object. |
| ThreadRun.FreedAtOnce | thread and concurrency primitives/cpu_impl.cpp:20-37 | A finished context is freed in the next section, before anything else can finish, and no other is. |
| ThreadRun.CallOk | thread and concurrency primitives/thread_impl.cpp:10-146 | No call user code can make touches a context, flag or queue that is gone; each keeps the invariant, and the CPU halts exactly when the call cannot go on and nothing is ready. |
| ThreadRun.RunInv | thread and concurrency primitives/thread.cpp:17-118 | The invariant holds in every state of every run, under any interleaving of calls and timer yields. |
| ThreadRun.NextLogged | thread and concurrency primitives/mutex_impl.cpp:10-41 | The histories the claims speak of grow by exactly the calls that are made. |
| ThreadSteps.Swap3Ok | thread and concurrency primitives/thread.cpp:55-113 | A swap3 call keeps the match between the order of the ready queue and the deques of messages. |
| Threads.Library.constructor | thread and concurrency primitives/cpu_impl.cpp:40-83 | The first thread runs, and has no object. |
| Threads.Library.Create | thread and concurrency primitives/thread_impl.cpp:61-103 | A new context joins the ready queue, with its flag and its join queue. |
| Threads.Library.Drop | thread and concurrency primitives/thread_impl.cpp:138-146 | The destructor tells a running thread that its object is gone, and never touches a freed flag. |
| Threads.Library.Yield | thread and concurrency primitives/thread.cpp:29-53 | The running thread goes to the back of the ready queue, if there is another. |
| Threads.Library.Join | thread and concurrency primitives/thread_impl.cpp:107-136 | The caller waits in the target's queue unless it is done. |
| Threads.Library.Finish | thread and concurrency primitives/thread_impl.cpp:21-58 | All joiners become ready, the flag and the queue are freed, the context is left to the next section or the kernel context. |
| Threads.Library.Lock | thread and concurrency primitives/mutex_impl.cpp:10-41 | The caller takes a free mutex, or waits behind those who called before. |
| Threads.Library.Unlock | thread and concurrency primitives/mutex_impl.cpp:42-80 | It succeeds exactly for the holder, which has the mutex no more; the first waiter is the new holder at once, and ready, or the mutex is free. |
| Threads.Library.Wait | thread and concurrency primitives/cv_impl.cpp:22-59 | The mutex is handed on and the caller waits, in one section; it must lock again when it is woken. |
| Threads.Library.Signal | thread and concurrency primitives/cv_impl.cpp:61-83 | The first waiter, if any, becomes ready. |
| Threads.Library.Broadcast | thread and concurrency primitives/cv_impl.cpp:85-107 | All waiters become ready, in order. |
| Threads.Library.Swap3 | thread and concurrency primitives/thread.cpp:55-113 | The deques and the two queues are updated in place as the swap transition says. |
| FsRun.Linearizable | remote file server/File_server.cpp:358-854 | In every run of any number of concurrent requests, the replies and the tree are those of the requests done one after the other in the order of the log, and every answered request is there as it was made and with its answer. |
| FsHistory.EveryAnswer | remote file server/File_server.cpp:358-854 | In every run each request in the log has got the reply that those before it call for: a read the last data written to that block since the file was made, if the user made the file and the directories on the way; a write, create or delete succeeds exactly if the path is there or not, is of the right kind, is the user's, and the block number is below 124 and at most the end of the file; or there is no space. The tree is what they have made of it. |
| FsProgress.NoSpaceWhen | remote file server/File_server.cpp:449-667 | In every run, whoever is answered that there is no space was answered so while no block was free or the directory was full. |
| FsProgress.FewStepsEach | remote file server/File_server.cpp:358-854 | However requests are interleaved, each takes at most ten steps, and three for each name of its path, until it is answered. |
| FsProgress.ServedInTime | remote file server/File_server.cpp:358-854 | A stretch of a run in which no request begins is at most as long as the steps that are left of those being served, so no request is served for ever. |
| FsProgress.AllServed | remote file server/File_server.cpp:358-854 | Every run can be continued until every request that has been made is answered. |
| FsRun.NothingElse | remote file server/File_server.cpp:358-854 | The log has nothing else: each entry is a request that was made, and no request is there twice. |
| FsRun.RealTime | remote file server/File_server.cpp:358-854 | That order respects time: a request answered before another began comes first. |
| FsRun.RunInv | remote file server/File_server.cpp:358-854 | The invariant holds in every state of every run; the log leads serially from the first tree to the present one, and has each answered request once, as asked and with its reply. |
| FsRun.StepInv | remote file server/File_server.cpp:358-854 | Each lock operation, read, visit to the free set and disk write keeps the invariant, and the tree changes in at most one step of a request, as the request says. |
| FsInvariant.JobSteady | remote file server/File_server.cpp:783-847 | Whatever other requests do under their own locks, a request finds what it has read under its locks, because no directory on its way can go or be replaced. |
| FsSafety.ReadsView | remote file server/File_server.cpp:756-763 | No write is pending to what a request reads under its lock. |
| FsClaims.AtRest | remote file server/File_server.cpp:160-205 | While no request is being served the disk itself is the tree of the answered requests, no mutex is locked, and there is a key for every path. |
| FsClaims.DiskShowsTree | remote file server/File_server.cpp:443-465 | In every run, with any requests under way, whenever no delete stands between its visit to the free set and its write, the disk alone decodes to the tree the log has made. |
| FsClaims.CrashAtomic | remote file server/File_server.cpp:678-685 | With requests one at a time, after any prefix of the writes the disk is the tree before or the tree after the request that is being served. |
| FsRace.CrashLeavesNoTree | remote file server/File_server.cpp:734-762 | With two requests under way there is a reachable state in which the disk is no tree: a delete has given a block back and not written, and a write to another file has taken the block and written to it. |
| FsRace.HarmlessExactly | remote file server/File_server.cpp:734-762 | A write to a block leaves the tree the disk shows as it is, whatever is written, if and only if the disk does not lead to the block. |
| FsClaims.LocksExactly | remote file server/File_server.h:70-81 | A request has locked exactly the mutexes its progress calls for (the target's, and for a delete the directory's), and none once it is answered or refused. |
| FsLocks.TwoAtMost | remote file server/File_server.cpp:783-847 | In every run a request has locked no mutex but of its path or on the way to it, and never more than two, of a directory and what is in it. |
| FsLocks.AsDocumented | remote file server/File_server.h:70-81 | At its goal a request has locked exactly the mutex of its path, a create that of the directory above, a delete both; once answered none. |
| FsClaims.NoDeadlock | remote file server/File_server.cpp:783-853 | In no run do requests wait for each other in a circle: while there are any, one of them can take a step. |
| FsClaims.MutexUnwanted | remote file server/File_server.cpp:734-743 | A delete takes away the mutex of its target while no other request holds it or waits for it. |
| FsShape.BlocksApart | remote file server/File_server.cpp:449-464 | Over every run no block has two uses and no block of the tree is free; of the disk itself while no delete has its write to do. |
| FsShape.FreeExactly | remote file server/File_server.cpp:609-670 | A block is free exactly unless the tree reaches it, a request has taken it, or it was lost; of the disk itself while no delete has its write to do. |
| FsShape.FreeAtRest | remote file server/File_server.cpp:609-670 | In every run, while nothing is being served, the free set is exactly what the disk does not reach if and only if no block has been lost. |
| FsShape.LostWhen | remote file server/File_server.cpp:621-667 | The one way to lose a block: a create takes it for a table and then finds none for the inode. |
| FsLost.LosesBlock | remote file server/File_server.cpp:621-667 | A run on a full disk but for one block that loses it: the root's tables have no unused entry, and a create answers that there is no space. |
| FsShape.FreeOnDisk | remote file server/File_server.cpp:734-762 | With requests one at a time, the free set holds no block that the disk leads to if and only if no delete is between its visit to the free set and its write. |
| FsExample.FreedWhileReached | remote file server/File_server.cpp:734-762 | A run that reaches a state where a free block is still part of the disk's tree: a delete has given it back and not written yet. |
| FsExample.SmallStart | remote file server/File_server.cpp:73-87 | A disk to start from: a root directory with one file. |
| FsShape.DirectoryShape | remote file server/File_server.cpp:576-644 | Over every run the names in a directory are unique over all its tables, it has at most 124 tables, and each has a used entry. |
| FsShape.EmptyExactly | remote file server/File_server.cpp:715-719 | So a directory has size 0 exactly when it is empty, and the emptiness test of delete is right. |
| FsDisk.DecodesOnce | remote file server/File_server.cpp:807-820 | A disk decodes to at most one tree. |
| FsTree.WalkReaches | remote file server/File_server.cpp:795-844 | The inode walk passes its ownership tests exactly for the paths whose directories below the root, and which themselves, belong to the user. |
| FsLink.OverwriteOk | remote file server/File_server.cpp:443-447 | Overwriting a block changes that block of that file's contents and nothing else of the tree. |
| FsLink.AppendOk | remote file server/File_server.cpp:449-465 | Writing the inode makes the block that already holds the data the last of the file. |
| FsLink.LinkOk | remote file server/File_server.cpp:673-680 | Writing the table with the new entry adds exactly the new path. |
| FsLink.ExtendOk | remote file server/File_server.cpp:635-685 | Writing the directory's inode with a new table does the same. |
| FsUnlink.UnlinkOk | remote file server/File_server.cpp:722-763 | Writing the table without the entry removes exactly the path. |
| FsUnlink.DropOk | remote file server/File_server.cpp:745-758 | Writing the directory's inode without the emptied table, later tables moved down, does the same. |
| FsDelete.ClearsOne | remote file server/File_server.cpp:724-732 | Clearing by name clears the target's entry alone. |
| FsDelete.UsedOne | remote file server/File_server.cpp:722-732 | The entry count is 1 exactly if the target's entry was the last of its table. |
| FsPath.JoinComponents | remote file server/File_server.cpp:858-877 | Parsing an absolute path loses nothing: the names joined are the path. |
| FsPath.ComponentsJoin | remote file server/File_server.cpp:858-877 | The names of a path built from names are those names. |
| FsPath.PathStringInjective | remote file server/File_server.cpp:57-58 | Different paths are different keys. |
| FsPath.ParsePath | remote file server/File_server.cpp:858-877 | The loop yields the components. |
| FsPath.CheckValidPathname | remote file server/File_server.cpp:880-908 | It accepts exactly the paths that names of 1 to 59 characters without slash, space or NUL make, of at most 128 characters. |
| FsPath.ParentPath | remote file server/File_server.cpp:476-486 | create's rebuilt parent path is the parent's key, and with the last name it is the path given. |
| FsScan.SweptEntry | remote file server/File_server.cpp:50-62 | Scanning one used entry sweeps its inode and all below its path, and nothing else. |
| FsScan.SweptAll | remote file server/File_server.cpp:44-69 | When all tables are done, exactly what is below the directory has been swept. |
| FsScan.OneKeyEach | remote file server/File_server.cpp:57-58 | There is one key per path. |
| FsServer.FileServer.SearchInode | remote file server/File_server.cpp:41-71 | On any disk that is a tree the recursion ends, the path string is as it was, the blocks below and no others leave the free set, and the paths below become keys. |
| FsServer.FileServer.constructor | remote file server/File_server.cpp:78-87 | After start-up the free set is exactly the blocks the tree does not reach, and the keys are exactly the paths. |
| FsBoot.BootStart | remote file server/File_server.cpp:73-87 | Such a state starts the runs, for every disk that is a tree. |
| FsBoot.Boot | remote file server/File_server.cpp:73-87 | The constructor reaches it. |
| FsServer.FileServer.Handle | remote file server/File_server.cpp:160-205 | A parsed request gets the reply and leaves the tree that the specification says; a path name that such names do not make fails and changes nothing. |
| FsServer.FileServer.Search | remote file server/File_server.cpp:769-854 | The index walk over the path string finds the inode of exactly the components parse_path yields, if the user can reach it, and the entry above it. |
| FsServer.FileServer.Read | remote file server/File_server.cpp:358-406 | The block's contents, or a failure exactly when the read is not allowed. |
| FsServer.FileServer.Write | remote file server/File_server.cpp:409-469 | The tree changes as the write says; the prefixes of its disk writes show the old tree or the new; it finds no space exactly if it is allowed, makes the file longer and no block is free. |
| FsServer.FileServer.Create | remote file server/File_server.cpp:472-698 | The tree gains the path, or nothing changes; crash safe; it finds no space exactly if it is allowed and the directory has no unused entry and is full or fewer than two blocks are free, or has one and none is free; a block is lost exactly if it is allowed, the directory needs and may have one more table, and one block is free. |
| FsServer.FreeIffNoneLost | remote file server/File_server.cpp:621-667 | Between requests the free set is exactly what the disk does not reach if and only if no block has been lost. |
| FsServer.FileServer.ScanDirectory | remote file server/File_server.cpp:576-612 | The scan finds a duplicate name if there is one, or else the first unused slot. |
| FsServer.FileServer.Delete | remote file server/File_server.cpp:701-767 | The tree loses the path by at most one disk write; the key goes, and the free set gains exactly the blocks the target and its emptied table used. |
| FsServer.FileServer.EraseEntry | remote file server/File_server.cpp:721-762 | The loop over the table and the shift of the block list compute the one write of a delete. |
| FsSerial.TableRun | remote file server/File_server.cpp:635-685 | The three writes of a create with a new table leave the old tree until the last one. |

## Left out

- Sockets, encryption, passwords, sessions and sequence numbers, request and header parsing, logging: the model starts from a parsed request, and a closed connection is the reply `Failed`.
- `swapcontext`, `makecontext`, stack allocation, `bad_alloc`, more than one CPU, a null start function, a user function that throws: a switch is a change of the current thread.
- Destroying a mutex or a condition variable that is in use: mutexes and condition variables stay.
- Raw pointers: page entries, contexts, threads and mutexes are identified by what they belong to or by numbers; the wait queues are one map from owner to queue.
- The byte layout of disk blocks: a block is an inode, a table or data; names and owners are strings without the code's fixed-size buffers.
- `file_blocks` grows a vector per file; the model has a map, in which an absent block has no owners.
- Failure of a swap read or of any write: the code loses a frame when a swap read fails (virtual memory management/vm_pager.cpp:277), so the model has them succeed. A failed file read leaves the frame's contents as they were. In Pager whether a file read fails during a call is a parameter of the call; in PagerRun it is an event.
- Pager preconditions the infrastructure guarantees: a fault comes only when the bit is clear, at least two and at most 2^20 frames, file block numbers below 2^31-1, a switch follows a destroy.
- Thread interrupts inside a section: interrupts are disabled there.
- FsServer.FileServer.Handle: one request at a time and no mutexes; locks and interleaving are in FsSteps, whose steps use the same functions of disk, free set and tree.
- FsServer.FileServer.Search: the mutexes it locks and unlocks are in FsSteps.
- FsRun.Linearizable: the specification lets a request that needs space find none; that there was none is FsProgress.NoSpaceWhen. The reads of one directory or file under its mutex are one step, which FsSafety.ReadsView and FsInvariant.JobSteady justify; each section under file_server_lock is one step.
- FsProgress.AllServed: the scheduler is not modelled; with ServedInTime it says that any scheduler that lets some request step while one can serves them all.
- ThreadCalls.CallMoves: while the CPU does not halt; when it does is ThreadRun.CallOk.
- FsClaims.CrashAtomic: one request at a time; with more the claim is false (FsRace.CrashLeavesNoTree). Which interleavings of deletes and writes keep every state a tree is said write by write (FsRace.HarmlessExactly), not run by run.
- FsServer.FileServer.constructor: the disk is a tree whose names can stand in a path; on another disk the scan need not end.
- FsClaims.LocksExactly: what the progress of a request calls for is FsSteps.Holds; FsLocks says what that comes to.
- The ghost parts of the states (the view of the disk, the index of where everything is, logs and call histories) are history; no step reads them.
