# A verified model of the sandbox library's hard core

The library runs programs in sandboxes. This project models the parts of it that hold state or
arithmetic with something to get wrong, and proves what they promise:

- **The owning function wrapper** (`Erasure*.dfy`). An erasure is a buffer at an address, a word
  that may hold a heap pointer, and a command table. The model has a heap of blocks, a record of
  every box ever built and how often it was destroyed, and any number of erasures with their own
  addresses and capacities. `ErasureObject` has the class with the operations as they change an
  object in place, and proves each equal to a function on the whole population
  (`ErasureMachine`); `ErasureSafety` and `ErasureRuns` prove the ownership invariant and that
  every operation refines the same operation on an optional callable; `ErasureTheorems` draws the
  conclusions, and `ErasureStorage` accounts for every block and box. Object addresses and
  `std::align` are arithmetic (`ErasureLayout`).
- **Lazy initialisation across threads and processes** (`FileLock.dfy`, `Initialiser*.dfy`,
  `OnceMemory.dfy`). Any number of threads in any number of processes go through `Once`, the file
  lock, the checks, `create_directory` and the control files, one program point at a time, with
  file operations free to fail, the kernel to refuse what is written, and processes to be killed.
  The numeric values of the guard's `State` are a parameter, so every theorem holds both for three
  separate states and for the shipped values. `OnceMemory` looks at the flag alone, with loads that
  may read old stores, as acquire and release allow.
- **Mount objects** (`Mount*.dfy`) over the kernel's list of mounts: single calls, properly nested
  scopes, and arbitrary interleavings over any population of objects.
- **Descriptor ownership** (`FdHolder.dfy`, `FdOwnership.dfy`) over a descriptor table in which
  the kernel gives numbers out again, and `Execute` (`Execute.dfy`), which hands a process
  descriptor through three such holders.
- **Encodings**: durations (`Timer.dfy`), limits as text and the reader of flat-keyed files
  (`LimitText.dfy`, `FlatKeyed.dfy`, `CgroupLimits.dfy`), and the clone flags (`CloneArgs.dfy`), with
  64-bit ranges and conversions written out (`MachineInts.dfy`).

Every class method is proved against a function of the old state; the lemmas are about those
functions.

## What the proofs turned up

- `RLock` and `Unlocked` are both 0 (`sex/util/flock.hpp:18`, `sex/util/flock.hpp:23`), so the
  shared `unlock()` does nothing and the following `lock(RWLock)` is a conversion, which drops the
  old lock before it waits. The initialiser is right all the same: each run of the shipped guard is
  a run of a guard with three states (`ShippedGuardIsCorrect`). The guard's state does not mirror
  the kernel's lock (`SharedUnlockReleases`).
- Control files are written through buffered streams whose state is looked at before the flush
  (`sex/cgroup_controller.cpp:55-61`, `94-122`, `176-178`), so only a file that cannot be opened is
  noticed. Either write of the cgroup initialiser can be refused while the call returns normally
  (`RefusedWritesGoUnnoticed`); a maker that cannot open its last file gets an exception, but its
  next call returns normally (`AFailedWriteGoesUnnoticed`); and so does another process's call after
  the maker was killed (`AKilledMakerGoesUnnoticed`). A normal return means a complete directory
  exactly when some first write and the maker's last one were taken (`ReturnedMeansSetUp`). Limits
  that the kernel refuses go unnoticed in the same way (`RefusedLimitsGoUnnoticed`), and so do user
  mappings of a child (`sex/util/execute_hooks.cpp:37-41`).
- The documentation of `capacity_none` says that every object is allocated
  (`sex/detail/function2/function2.hpp:1719-1723`); by the code a box of pointer size and alignment
  still goes into the pointer's own storage (`NoCapacityStillHoldsAPointer`). The model follows the
  code.
- Self-assignment of an erasure is unguarded. A self-move is undefined exactly if the callable is
  in the buffer, and otherwise loses it; a self-copy is undefined exactly if there is a callable
  (`SelfMoveAssignment`, `SelfCopyAssignment`).
- A bind mount whose read-only remount is refused leaves a writable mount with no owner
  (`MountIsAllOrNothingButOnce`). An object's destructor takes whatever mount is on top, which
  after a `detach` of a later object on the same path is not its own (`ADetachedMountCanBeTaken`).
  It fails, and ends the program, if a later mount on a directory above hides the destination or
  one below uses it (`DestructorsSucceedExactlyWhen`).
- A `reset` to the number the holder already has closes it and keeps the number
  (`ResetToItsOwnNumber`).

## Model

| member | source | states |
|---|---|---|
| ErasureLayout.InPlaceExactlyWhenItFits | sex/detail/function2/function2.hpp:475-484 | the in-place retriever yields an address if and only if some suitably aligned address leaves room in the buffer, and then the lowest one |
| ErasureLayout.SuitableBoxesStayInPlace | sex/detail/function2/function2.hpp:1066-1114 | a type whose alignment divides the buffer's and whose size fits is never allocated, wherever the erasure is |
| ErasureLayout.NoCapacityStillHoldsAPointer | sex/detail/function2/function2.hpp:1080-1087 | without capacity the pointer's own storage still takes boxes up to its size and alignment |
| ErasureObject.Erasure.ConstructBox | sex/detail/function2/function2.hpp:931-947 | the whole population after `construct`, and nothing else changed |
| ErasureObject.Erasure.HandOver | sex/detail/function2/function2.hpp:869-881 | moving a heap object hands its pointer over, clearing it at the source in debug builds only |
| ErasureObject.Erasure.Rebuild | sex/detail/function2/function2.hpp:884-888 | moving an in-place object builds it at the target, then ends it at the source |
| ErasureObject.Erasure.RunMove | sex/detail/function2/function2.hpp:862-890 | the move command of every kind of command table, empty ones and unusable boxes included |
| ErasureObject.Erasure.MoveInto | sex/detail/function2/function2.hpp:996-1001 | `vtable::move`: the command, and then an empty source |
| ErasureObject.Erasure.CopyInto | sex/detail/function2/function2.hpp:1004-1009 | `vtable::copy` for every kind of command table |
| ErasureObject.Erasure.WeakDestroyBox | sex/detail/function2/function2.hpp:904-921 | the box goes and the slot, vtable included, is as before |
| ErasureObject.Erasure.Empty | sex/detail/function2/function2.hpp:1134-1140 | the population gains an empty erasure |
| ErasureObject.Erasure.Of | sex/detail/function2/function2.hpp:1161-1186 | the population gains an erasure with the callable, or an empty one if the callable tests false |
| ErasureObject.Erasure.MoveFrom | sex/detail/function2/function2.hpp:1142-1146 | move construction on the population |
| ErasureObject.Erasure.CopyFrom | sex/detail/function2/function2.hpp:1148-1151 | copy construction on the population |
| ErasureObject.Erasure.ConvertFrom | sex/detail/function2/function2.hpp:1153-1159 | construction from another capacity through the by-value argument, which is gone afterwards |
| ErasureObject.Erasure.Destroy | sex/detail/function2/function2.hpp:1188-1190 | the population without the object, its box ended |
| ErasureObject.Erasure.Clear | sex/detail/function2/function2.hpp:1192-1196 | assignment of nullptr |
| ErasureObject.Erasure.AssignMoved | sex/detail/function2/function2.hpp:1198-1204 | move assignment, self-assignment included |
| ErasureObject.Erasure.AssignCopied | sex/detail/function2/function2.hpp:1206-1211 | copy assignment, self-assignment included |
| ErasureObject.Erasure.AssignConverted | sex/detail/function2/function2.hpp:1213-1221 | assignment from another capacity |
| ErasureObject.Erasure.AssignCallable | sex/detail/function2/function2.hpp:1223-1244 | `assign` of a callable, or clearing if it tests false |
| ErasureObject.Erasure.SwapWith | sex/detail/function2/function2.hpp:1659-1667 | `swap` as three moves through a local, nothing at all on one object |
| ErasureObject.Erasure.IsEmpty | sex/detail/function2/function2.hpp:1026-1030 | the answer of the command table, and no change |
| ErasureObject.Erasure.Call | sex/detail/function2/function2.hpp:582-626 | which callable is called, or how an empty erasure answers |
| ErasureSafety.ConstructOwns | sex/detail/function2/function2.hpp:931-947 | constructing over an owner of nothing makes it own exactly the new box; all others keep theirs |
| ErasureSafety.WeakDestroyReleases | sex/detail/function2/function2.hpp:1017-1023 | after `weak_destroy` the others own all remaining boxes, though the stale vtable is still there |
| ErasureSafety.MoveHandsOver | sex/detail/function2/function2.hpp:863-889 | for every mix of storage the target gets the callable, the source is empty, others keep theirs, ownership stays one to one |
| ErasureSafety.CopyDuplicates | sex/detail/function2/function2.hpp:891-903 | the target gets an equal callable in a box of its own, the source keeps its own |
| ErasureRuns.StepRefines | sex/detail/function2/function2.hpp:1134-1244 | every legal operation keeps the ownership invariant and acts on the optional callables as the same operation on values |
| ErasureRuns.RunRefines | sex/detail/function2/function2.hpp:1134-1244 | so does every finite sequence of operations on any population |
| ErasureTheorems.RunsAreSafe | sex/detail/function2/function2.hpp:858-947 | no legal run does anything undefined: no dead or mistyped box is used, nothing is destroyed or freed twice |
| ErasureTheorems.EachBoxHasOneOwnerOrIsDeadOnce | sex/detail/function2/function2.hpp:1188-1221 | every box ever built is alive with exactly one owner, or was destroyed exactly once and has none |
| ErasureTheorems.NothingLeaks | sex/detail/function2/function2.hpp:1188-1190 | once all erasures are gone each box was destroyed once and each block freed once |
| ErasureTheorems.RetrieveFindsTheBox | sex/detail/function2/function2.hpp:587-599 | `retrieve` yields the non-null address that `construct` chose, and it is in the buffer exactly if the table says so |
| ErasureTheorems.QueriesAgree | sex/detail/function2/function2.hpp:619-625 | `empty()` is true exactly for no callable; calling no callable throws or aborts |
| ErasureTheorems.LiveBoxesArePresentCallables | sex/detail/function2/function2.hpp:1116-1190 | there are exactly as many live boxes as non-empty erasures |
| ErasureTheorems.SwapExchanges | sex/detail/function2/function2.hpp:1659-1667 | `swap` exchanges the callables for every mix of storage, conserves live boxes, and is the identity on one object |
| ErasureTheorems.CopiesShareNothing | sex/detail/function2/function2.hpp:1206-1211 | a copy is equal, in storage apart from the source's, and the source is unchanged |
| ErasureTheorems.OthersAreUnaffected | sex/detail/function2/function2.hpp:1134-1244 | no later operations on others change an erasure they do not name |
| ErasureTheorems.SelfMoveAssignment | sex/detail/function2/function2.hpp:1198-1204 | exactly when assigning an erasure to itself by move is undefined, and what it leaves otherwise |
| ErasureTheorems.SelfCopyAssignment | sex/detail/function2/function2.hpp:1206-1211 | exactly when assigning an erasure to itself by copy is undefined |
| ErasureTheorems.MoveAllocatesOnlyWhenItMust | sex/detail/function2/function2.hpp:863-889 | a move allocates exactly when an in-place object does not fit the target; a heap block changes hands as it is |
| ErasureStorage.StepShows | sex/detail/function2/function2.hpp:1134-1244 | every operation keeps each callable in buffer or block, allocates blocks and builds boxes just as an account says that knows only where buffers have room |
| ErasureStorage.RunShows | sex/detail/function2/function2.hpp:1134-1244 | so does every run, so the account gives the exact number of blocks and boxes |
| ErasureStorage.NewCallablesPreferTheBuffer | sex/detail/function2/function2.hpp:931-947 | a callable that is wrapped, assigned or copied lies in the target's buffer at the lowest fitting address with no new block if it fits at all, and otherwise in exactly one new block |
| ErasureStorage.ConvertedCallables | sex/detail/function2/function2.hpp:1153-1221 | where a callable from another capacity ends up after passing through the by-value argument, and exactly how many blocks and boxes that takes |
| ErasureStorage.HandingShows | sex/detail/function2/function2.hpp:869-881 | a block changes hands with no block or box made; only debug builds forget the pointer at the source |
| ErasureStorage.BufferedIsLowest | sex/detail/function2/function2.hpp:475-484 | whatever the table says is in the buffer lies at the lowest address where it fits |
| ErasureStorage.SuitableRunsNeverAllocate | sex/detail/function2/function2.hpp:1066-1114 | if all erasures have one capacity and its alignment, and all callables suit it, no run allocates a block, `swap`'s local and by-value arguments included |
| ErasureStorage.StorageIsTight | sex/detail/function2/function2.hpp:1070-1087 | the storage's size is the least multiple of its alignment that holds the capacity and a pointer |
| FileLock.FileLockGuard.Open | sex/util/flock.hpp:26-31 | a guard over a fresh open file description starts unlocked |
| FileLock.FileLockGuard.Lock | sex/util/flock.hpp:33-46 | when a call is granted, waits or fails its assertion, with and without NDEBUG, and the kernel's locks and the state in each case |
| FileLock.FileLockGuard.Unlock | sex/util/flock.hpp:48-54 | the state is unlocked afterwards; the kernel's lock goes unless the state already said so |
| FileLock.FileLockGuard.Destroy | sex/util/flock.hpp:56-59 | whatever the state said, the kernel's lock is gone |
| FileLock.SharedUnlockReleases | sex/util/flock.hpp:17-24 | a shared `unlock()` releases the kernel's lock exactly if the two enumerators differ; as shipped it changes nothing |
| FileLock.CanLockExactly | sex/util/flock.hpp:33-46 | any number of shared locks, or a single exclusive one |
| InitialiserSafety.StepKeepsInv | sex/cgroup_controller.cpp:39-62 | every step of every thread keeps the invariant, however each file operation ends and whichever process is killed: a directory that somebody may still write into has a thread with the exclusive lock between mkdir and last write |
| InitialiserSafety.KilledKeepsInv | sex/util/flock.hpp:56-65 | killing a process at any point keeps it: the kernel drops its locks, and a last write that it was about to make is missed for good |
| InitialiserSafety.CheckedIsSettled | sex/cgroup_controller.cpp:40-52 | a check made under either lock never sees a directory that another thread is still setting up |
| InitialiserSafety.RunKeepsInv | sex/util/once.hpp:14-24 | every run of any threads in any processes keeps the invariant, for every encoding of the guard's states |
| InitialiserTheorems.ReturnedMeansSetUp | sex/cgroup_controller.cpp:54-61 | the directory is made at most once, no lock assertion fails, and a normal return means a present directory, complete exactly when the kernel took some thread's first write and the maker's last one |
| InitialiserTheorems.SuccessfulRunsSetUp | sex/container.cpp:16-35 | if what is opened for writing is taken and the maker gets to open its last file, and always for the container directory, a normal return means a complete directory |
| InitialiserTheorems.ChecksSeeSettledDirectories | sex/container.cpp:25-32 | in every run, both checks see an absent or a settled directory |
| InitialiserTheorems.SetUpIsExclusive | sex/util/flock.hpp:33-46 | whoever is past the exclusive lock holds the only lock there is |
| InitialiserTheorems.ActionsRunUntilOneSucceeds | sex/util/once.hpp:18-23 | a thread in the action is the only one of its process past the mutex, and its process's flag is clear |
| InitialiserTheorems.ThrowingLeavesNothingBehind | sex/util/once.hpp:18-23 | an action that throws leaves mutex and file lock free and the flag unset, and the thread can call again |
| InitialiserTheorems.AFailedWriteGoesUnnoticed | sex/cgroup_controller.cpp:58-61 | a concrete run: the maker cannot open its last file and gets an exception, and its next call returns normally over a half set-up directory |
| InitialiserTheorems.RefusedWritesGoUnnoticed | sex/cgroup_controller.cpp:55-61 | for each of the two writes, taken or refused by the kernel: one and the same call returns normally, over a complete directory only if both were taken |
| InitialiserTheorems.AKilledMakerGoesUnnoticed | sex/cgroup_controller.cpp:58-61 | a concrete run: the maker is killed between mkdir and its last write, and another process returns normally |
| InitialiserProgress.AdvanceDecreases | sex/util/once.hpp:14-24 | every step takes the threads strictly closer to the end of their calls |
| InitialiserProgress.RunsAreBounded | sex/util/once.hpp:14-24 | a run without new calls is no longer than the steps its threads have left |
| InitialiserProgress.NoDeadlock | sex/cgroup_controller.cpp:44-52 | while a call is unfinished some thread can go on, also when several hold shared locks and want the exclusive one |
| InitialiserProgress.StuckMeansFinished | sex/container.cpp:24-32 | a run that cannot be continued has all calls finished |
| InitialiserCalls.CallsEndAsTheirOperations | sex/util/once.hpp:18-24 | for both configurations, every encoding and run: a call that is over threw if and only if one of its own file operations failed, and else returned |
| InitialiserCalls.FinishedCallsReturned | sex/container.cpp:24-35 | in a run that cannot go on every surviving thread's call with no such failure has returned, and the others threw |
| InitialiserCalls.LaterCallsAreFast | sex/util/once.hpp:15-17 | after a normal return in a process each further call there returns after one look at the flag and changes nothing else |
| InitialiserCalls.PresentDirectoriesAreOnlyLookedAt | sex/cgroup_controller.cpp:44-47 | if the directory is there to begin with, no run takes an exclusive lock or writes anything |
| InitialiserEncodings.StepSimulates | sex/util/flock.hpp:67-80 | each step under any encoding is a step of the guard with three states |
| InitialiserEncodings.RunSimulates | sex/util/flock.hpp:33-54 | so is each run, to the idealised end state |
| InitialiserEncodings.ShippedGuardIsCorrect | sex/util/flock.hpp:17-24 | each run of the shipped guard is a run of the intended one with the same program points, flags and directory |
| OnceMemory.RunKeepsInv | sex/util/once.hpp:14-24 | whoever knows of the flag's store knows of all the action's writes, in every execution that the memory model allows |
| OnceMemory.ReturnSeesTheAction | sex/util/once.hpp:15-21 | a normal return, by the acquire load or by the relaxed one, sees all of the action's writes; the action completes at most once |
| OnceMemory.ActsUntilOneCompletes | sex/util/once.hpp:19-22 | the load under the mutex leads to the action exactly as long as none has completed |
| OnceMemory.ThrowLeavesTheFlag | sex/util/once.hpp:18-23 | after an action throws the mutex is free and no store says true |
| OnceMemory.CallsEndAsTheirActions | sex/util/once.hpp:14-24 | a call that is over threw if and only if its own action threw |
| OnceMemory.InformedCallsAreFast | sex/util/once.hpp:15-17 | a thread that has heard of the store can only return by the fast path, and one that has not may still miss it |
| MountKernel.LastIsOnTop | sex/util/mount/bind.hpp:87-104 | a new mount is the visible one and not in use, and unmounting it restores the list |
| MountObjects.BindMount.MountIt | sex/util/mount/bind.hpp:82-99 | outcome, object and mount list after `mount()`, for every answer of file system and kernel |
| MountObjects.BindMount.UnmountIt | sex/util/mount/bind.hpp:101-111 | outcome, object and mount list after `unmount()` |
| MountObjects.BindMount.DetachIt | sex/util/mount/bind.hpp:113-116 | outcome and object after `detach()` |
| MountObjects.BindMount.DestroyIt | sex/util/mount/bind.hpp:118-122 | mount list after the destructor, which unmounts exactly what is mounted and not detached |
| MountObjects.TmpFsMount.MountIt | sex/util/mount/tmpfs.hpp:18-32 | outcome, object and mount list after `mount()` |
| MountObjects.TmpFsMount.UnmountIt | sex/util/mount/tmpfs.hpp:34-42 | outcome, object and mount list after `unmount()` |
| MountObjects.TmpFsMount.DetachIt | sex/util/mount/tmpfs.hpp:44-47 | outcome and object after `detach()` |
| MountObjects.TmpFsMount.DestroyIt | sex/util/mount/tmpfs.hpp:49-53 | mount list after the destructor |
| MountObjects.FlagsInvertDefaults | sex/util/mount/bind.hpp:72-80 | read-only exactly without ALLOW_WRITE, recursive exactly without NO_REC, always a bind and never yet a remount |
| MountObjects.MountIsAllOrNothingButOnce | sex/util/mount/bind.hpp:82-99 | success puts exactly the wanted mount on top; an error changes nothing, but for a refused remount, which leaves one writable mount and an unmounted object |
| MountObjects.MountSucceedsExactlyWhen | sex/util/mount/bind.hpp:82-99 | the exact condition for success |
| MountObjects.MountAnswers | sex/util/mount/bind.hpp:22-99 | each result of `mount()` if and only if the object's state, its kind and the answers of file system and kernel are such, in the code's order of precedence |
| MountObjects.UnmountAnswers | sex/util/mount/bind.hpp:101-111 | each result of `unmount()`, exactly when, and which mount goes |
| MountObjects.MountWords | sex/util/mount/bind.hpp:72-92 | the flag words of bind and remount in the kernel's numbers |
| MountBlocks.BlocksRestoreTheTable | sex/util/mount/bind.hpp:101-122 | properly nested use, remounting included and however many objects share a path, succeeds and restores the mount list exactly |
| MountRuns.StepKeepsInv | sex/util/mount/bind.hpp:82-122 | every call keeps the account of whose mounts there are, if the caller's own mount is the visible one when it unmounts |
| MountRuns.OnlyDetachedMountsRemain | sex/util/mount/bind.hpp:113-122 | when all objects are gone the initial mounts are as they were and above them are exactly those detached while mounted and those of refused remounts, as made and in order |
| MountRuns.AccountIsKeptExactlyForOwnMounts | sex/util/mount/bind.hpp:101-122 | that condition is exact: a call that takes a mount keeps the account if and only if it takes its own |
| MountRuns.ADetachedMountCanBeTaken | sex/util/mount/tmpfs.hpp:44-53 | a concrete run in which a destructor takes a detached object's mount and its own stays |
| MountRuns.HeightsAlwaysAddUp | sex/util/mount/bind.hpp:82-122 | in any interleaving each path has the initial mounts, one per active object, and those left behind |
| MountRuns.DestructorsSucceedExactlyWhen | sex/util/mount/bind.hpp:118-122 | in any interleaving a mounted object has a mount at its destination, and its destructor succeeds if and only if the system permits, no later mount above hides it and none below uses it |
| MountRuns.InitialMountsStay | sex/util/mount/bind.hpp:82-122 | in any interleaving, with objects taking each other's mounts, the initial mounts stay exactly as they were, and are all there is once no object is left and none left a mount behind |
| FdHolder.Holder.MoveFrom | sex/util/fd_holder.cpp:11-13 | the new holder has the number, the old one none |
| FdHolder.Holder.Swap | sex/util/fd_holder.cpp:15-17 | the numbers are exchanged |
| FdHolder.Holder.MoveAssign | sex/util/fd_holder.cpp:23-26 | the numbers are exchanged: nothing is closed |
| FdHolder.Holder.ResetTo | sex/util/fd_holder.cpp:32-37 | whether the call returns, the number and the descriptor table afterwards |
| FdHolder.Holder.Release | sex/util/fd_holder.cpp:39-43 | the number is given out and the holder is empty |
| FdHolder.Holder.Destroy | sex/util/fd_holder.cpp:45-47 | the descriptor table after the destructor |
| FdHolder.ResetExactly | sex/util/fd_holder.cpp:32-37 | a `reset` returns exactly if it had nothing to close or closed it, holds the new number and has closed the old one only; a failed close changes nothing |
| FdOwnership.StepKeepsInv | sex/util/fd_holder.cpp:9-47 | every proper call keeps: distinct holders have distinct open descriptors, and acquired is closed plus released plus owned |
| FdOwnership.InOrderExactlyWhenProper | sex/util/fd_holder.cpp:32-37 | a call keeps the invariant if and only if it gives a holder nothing, or an open descriptor that no holder has |
| FdOwnership.ResetToItsOwnNumber | sex/util/fd_holder.cpp:32-37 | a holder reset to its own number closes it and later closes whatever gets that number next |
| FdOwnership.HoldersOwnDescriptors | sex/util/fd_holder.cpp:9-47 | over every proper run no call fails, nothing is closed twice, and non-empty holders own different open descriptors |
| FdOwnership.NothingIsLeaked | sex/util/fd_holder.cpp:32-47 | once all holders are gone, closed is exactly what was acquired minus what was released |
| FdOwnership.StepRefines | sex/util/file_descriptor.hpp:27-29 | although numbers are used again, each call acts on what is behind them as the same call on holders of opened things |
| Timer.SplitIsNormal | sex/util/timer_fd.hpp:68-75 | truncating division gives less than a second beside the seconds, on the same side of zero, and the same time in total |
| MachineInts.Widths | sex/util/timer_fd.hpp:71-74 | the 64-bit range and the conversion to unsigned in plain numbers |
| Timer.DurationSurvives | sex/util/timer_fd.hpp:68-81 | every 64-bit count comes back and no intermediate result overflows |
| Timer.TimeSpecSurvivesExactlyWhenNormal | sex/util/timer_fd.hpp:77-81 | a timespec comes back if and only if it is normal and its total is a 64-bit count |
| Timer.KernelTimesSurvive | sex/util/timer_fd.hpp:77-81 | so does every non-negative time in the kernel's form |
| Timer.OrderIsKept | sex/util/timer_fd.hpp:68-75 | the order of durations is the order of seconds, then nanoseconds |
| Timer.TimerSpecSurvives | sex/util/timer_fd.hpp:83-99 | a setting comes back; the first expiration goes to the value and the interval to the interval |
| Timer.KernelSettingSurvives | sex/util/timer_fd.hpp:83-99 | exactly which kernel settings come back, with the two sides never crossed |
| LimitText.LimitSurvives | sex/cgroup_controller.cpp:94-102 | every 64-bit limit is decoded as it was printed: "max" for the largest number and no other, else canonical decimal |
| LimitText.TextSurvivesExactlyWhenCanonical | sex/cgroup_controller.cpp:18-24 | a value text is printed again as it was read if and only if it is "max" or canonical decimal below it |
| LimitText.StoullOfDigits | sex/cgroup_controller.cpp:20-22 | what an optional sign, digits and anything after them are read as, with both exceptions |
| LimitText.EveryTextHasSuchParts | sex/cgroup_controller.cpp:20-22 | every text has such parts, so the previous statement covers all inputs |
| FlatKeyed.Stream.Extract | sex/cgroup_controller.cpp:18-18 | extraction yields the next word and leaves the others, or fails when there is none |
| FlatKeyed.ReadFlatKeyedFile | sex/cgroup_controller.cpp:15-26 | the loop computes the map of the pairs among the words, or ends with the exception of the first bad value |
| FlatKeyed.LaidWordsAreFound | sex/cgroup_controller.cpp:18-18 | words are found whatever white space is between and around them |
| FlatKeyed.EveryTextIsLaidOut | sex/cgroup_controller.cpp:18-18 | every text is words with white space between, so the previous statement covers all inputs |
| FlatKeyed.SucceedsExactlyWhenAllDecode | sex/cgroup_controller.cpp:18-24 | reading succeeds if and only if the value of every complete pair decodes |
| FlatKeyed.FirstBadValueDecides | sex/cgroup_controller.cpp:18-24 | otherwise the exception is that of the first pair whose value does not decode |
| FlatKeyed.SpacesAre | sex/cgroup_controller.cpp:18-18 | which characters separate words, by character code |
| FlatKeyed.LastPairDecides | sex/cgroup_controller.cpp:23-23 | the last pair of a key decides its value |
| FlatKeyed.OtherKeysKeepTheirs | sex/cgroup_controller.cpp:17-25 | the result has no other keys |
| FlatKeyed.LoneKeyIsDropped | sex/cgroup_controller.cpp:18-18 | a last key without value adds nothing |
| FlatKeyed.PrintedLinesAreReadBack | sex/cgroup_controller.cpp:15-26 | any printed lines are read back, a later one for a key replacing an earlier one |
| FlatKeyed.BrokenLineAddsNothing | sex/cgroup_controller.cpp:15-26 | printed text that breaks off after a key reads as if it stopped before |
| FlatKeyed.MapsSurvive | sex/cgroup_controller.cpp:15-26 | every map of 64-bit values under words is read back from its lines in any order |
| CgroupLimits.Controller.SetMemoryLimitMax | sex/cgroup_controller.cpp:94-102 | panics exactly if its file cannot be opened; what all control files have then, the kernel having taken or refused the text |
| CgroupLimits.Controller.SetMemoryLimitHigh | sex/cgroup_controller.cpp:104-112 | panics exactly if its file cannot be opened; what all control files have then, the kernel having taken or refused the text |
| CgroupLimits.Controller.SetPidsLimit | sex/cgroup_controller.cpp:114-122 | panics exactly if its file cannot be opened; what all control files have then, the kernel having taken or refused the text |
| CgroupLimits.Controller.SetCpuWindowLimit | sex/cgroup_controller.cpp:176-178 | the same for its file, with two signed numbers |
| CgroupLimits.Controller.Configure | sex/cgroup_controller.cpp:73-91 | the constructor writes what the options ask for, in order, up to the first file that cannot be opened, and past every refusal |
| CgroupLimits.ConfiguresExactlyWhenOpened | sex/cgroup_controller.cpp:73-91 | the constructor succeeds if and only if every file it has to write can be opened; in success and failure the files have exactly what was opened in time and taken by the kernel |
| CgroupLimits.EnteredExactly | sex/cgroup_controller.cpp:73-122 | which options enter their file, by the control files' names: asked for, opened, no earlier file failed to open, and taken |
| CgroupLimits.OptionsReachTheirFiles | sex/cgroup_controller.cpp:66-92 | in success and failure each option's file comes to read as the option if and only if it was opened and the kernel took the text (or did so before); every other file is left alone |
| CgroupLimits.RefusedLimitsGoUnnoticed | sex/cgroup_controller.cpp:94-102 | how the constructor ends does not depend on what the kernel refuses, up to refusing everything with no file changed |
| CgroupLimits.CpuTextSurvives | sex/cgroup_controller.cpp:176-178 | the text is two words which in signed decimal notation say the two counts, for all counts |
| CgroupLimits.WindowSurvives | sex/cgroup_controller.hpp:35-41 | signed microseconds survive the builder's unsigned fields; only a limit of -1 counts as none |
| CloneArgs.ExecuteArgs.NewNamespace | sex/util/execute_args.cpp:6-9 | all arguments after setting a namespace flag |
| CloneArgs.ExecuteArgs.SameNamespace | sex/util/execute_args.cpp:11-13 | all arguments after clearing it |
| CloneArgs.ExecuteArgs.EnterCgroup | sex/util/execute_args.cpp:57-60 | all arguments after naming a cgroup |
| CloneArgs.ExecuteArgs.KeepCgroup | sex/util/execute_args.cpp:62-65 | all arguments after discarding it |
| CloneArgs.SettingTouchesOne | sex/util/execute_args.cpp:84-92 | setting or clearing a flag changes that flag and no other |
| CloneArgs.LastCallDecides | sex/util/execute_args.cpp:31-78 | after any history each flag, the cgroup and the exit signal are as the last call on it says, and there are no other bits |
| CloneArgs.BitsAreTheKernels | sex/util/execute_args.cpp:31-73 | after any history each of the eleven bits, in the kernel's numbers, is as the last call on it says, and no other bit is set |
| CloneArgs.SignalAndCgroup | sex/util/execute_args.cpp:57-78 | the exit signal is 17 unless set, and signal and cgroup are stored as given |
| CloneArgs.CgroupGoesWithItsFlag | sex/util/execute_args.cpp:57-65 | if the child is to enter a cgroup it is the one last named |
| CloneArgs.WordIsDetermined | sex/util/execute_args.cpp:84-92 | the flag word is determined by the flags it has |
| CloneArgs.OnlyLastCallsMatter | sex/util/execute_args.cpp:31-78 | histories that end alike for every flag, the cgroup and the signal build the same arguments |
| Execute.Run | sex/execute.cpp:14-46 | how the call ends and the descriptor table then, for every answer of the kernel and the routine; the knob has its own holder |
| Execute.CreateMappings | sex/util/execute_hooks.cpp:34-42 | throws exactly if one of the four things that it observes goes wrong |
| Execute.DescriptorExactlyOnRequest | sex/execute.cpp:17-45 | the knob is for the cloned process, and owns its newly opened descriptor if and only if the last call about it in the builder asked for one; in all other endings none is opened, and the caller gets an exception exactly if the clone fails |
| Execute.ChildNeverReturns | sex/execute.cpp:26-36 | the child exits with 0 or 127; an exception gets out of it exactly if it asked for a user namespace, and prctl fails or one of the three mapping files cannot be opened (refused mappings go unnoticed) |
| Execute.ExecuteFollowsTheRule | sex/execute.cpp:38-45 | among any other holders its moves and destructions keep descriptor ownership and leave exactly the knob's holder |

## Left out

- Template machinery of the function wrapper (overload sets, qualifiers, tables with several signatures): compile-time dispatch; one signature is modelled.
- The non-owning view of the function wrapper: it owns nothing.
- Exceptions from user copy and move constructors and from allocators: the wrapper asks for no strong guarantee (`sex/util/unique_function.hpp:13`), so none is assumed to be thrown.
- The temporary box that `make_box` builds and moves from: only the box that ends up in the erasure is counted.
- Reuse of heap addresses: blocks are told apart by when they were allocated, so using a freed block always shows as undefined. Copying a pointer that is no longer valid, in a self-move, counts as harmless because nothing is read through it.
- ErasureTheorems.RunsAreSafe: legal runs use constructed objects, do not overlap addresses and do not assign an object to itself; the two lemmas about self-assignment say what happens otherwise.
- Failing or interrupted flock(2), and errors of `exists`: not modelled. `open`, `create_directory` and the writes may fail, the kernel may refuse what is written, and processes may be killed.
- InitialiserTheorems.SuccessfulRunsSetUp: takes accepted writes as an assumption for the cgroup directory, since without it the statement is false; ReturnedMeansSetUp has the exact condition.
- Deletion of the directories by others during a run: the code has no defence against it.
- The order of all stores to the `Once` flag is the order in which they are made, because they are made under the mutex; other memory locations of the action are one counter of writes.
- `Once` and the two initialisers have no class: they are concurrent, and appear as steps of threads.
- The mount list has no mounts that a recursive bind brings along, no propagation and no file contents, so the truncation of the destination by the file check is not visible. Paths are compared as text, with hiding and use judged by their components: symbolic links, `..` and repeated slashes are not resolved.
- MountBlocks.BlocksRestoreTheTable: takes a system that permits the mounts, as the statement is about successful use; MountRuns covers refusals.
- FdOwnership.NothingIsLeaked: closes fail only for numbers that are not open; other errors of close(2) are not modelled.
- CloneArgs.ExecuteArgs: the sixteen macro-defined methods are two methods with the namespace as a parameter.
- Execute.Run: the hooks are the default ones; the child's own descriptor table and memory are not modelled.
- LimitText: `std::stoull` is a function that follows the C++ standard's description; its source is not part of this model.
- The system calls themselves, `EventPoller`, `DataTransfer`, `rlimit`, `Container::enter`, the statistics getters, `Result`, `ExitStatus`, `ProcessKnob::wait`, timer expiry: plumbing that would add only easy members.
