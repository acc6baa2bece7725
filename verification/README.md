# Verified concurrency and round-trip properties of the tunnel and its thread library

This project models the concurrent objects of the POSIX threads library for Windows that the
tunnel carries (version 2.10), its thread-specific data and handle management, and the
tunnel's own copy and paste of boxes of blocks. It proves what these promise over all runs,
for any number of threads.

`dafny verify dfyconfig.toml` checks everything.

## How the code is represented

Concurrent code is a transition system. One action is one interlocked operation, one event
or semaphore operation, one mutex operation or one section protected by a lock; every thread
(in the MCS lock, every node) carries a program counter whose constructors name the source
lines. `Enabled` says when an action can be taken, the `Do...` and `...Apply` functions what
it does, `Inv` what all reachable states have in common, and a theorem about `Reachable`
states is a theorem about every prefix of every run. Fields called history (tickets, logs,
counts of deaths) record what happened and are not consulted by any action, but for one
guard: a normal mutex keeps no owner, so `Mutex` assumes through its history that the caller
unlocks only what it holds.

Code that runs under a lock and edits linked structures is a class with the source's fields,
and its procedures are methods with the source's branches and loops; the chains are tied to
ghost sequences. The copy and paste loops are methods over arrays.

The layers use each other as follows. `McsLock.StepRefinesLock` shows that the MCS lock is a
plain lock with hand-over; `Barrier` assumes such a lock, and the procedures of `KeyGrid`,
`ThreadReuse` and `CondList` run inside one. `RwLock` and `CondVar` assume a plain mutex,
which `Mutex.StepRefinesLock` shows the mutex to be, and `RwLock` assumes of its condition
variable what `CondVar` proves. `RobustMutex` relies on `RobustList`
for its list actions and on `ThreadReuse` for thread handles that do not come back.
`Population` counts threads, `Runs` says what a run is, and `Sequences` unlinks from one.

| file | models |
|---|---|
| mcs_lock.dfy | ptw32_MCS_lock.c |
| cond_var.dfy, cond_list.dfy | pthread_cond_wait.c, pthread_cond_signal.c, pthread_cond_destroy.c, the list of pthread_cond_init.c |
| mutex.dfy | non-robust halves of pthread_mutex_lock.c, pthread_mutex_timedlock.c, pthread_mutex_trylock.c, pthread_mutex_unlock.c |
| robust_mutex.dfy, robust_list.dfy | robust halves of pthread_mutex_lock.c, pthread_mutex_trylock.c, pthread_mutex_unlock.c; pthread_mutex_consistent.c; the drain in pthread_win32_attach_detach_np.c |
| rwlock.dfy | pthread_rwlock_rdlock.c, wrlock.c, timedwrlock.c, trywrlock.c, unlock.c, ptw32_rwlock_cancelwrwait.c |
| barrier.dfy | pthread_barrier_wait.c |
| key_grid.dfy | ptw32_tkAssocCreate.c, ptw32_tkAssocDestroy.c, pthread_setspecific.c, pthread_key_delete.c, ptw32_callUserDestroyRoutines.c |
| thread_reuse.dfy | ptw32_reuse.c, ptw32_new.c |
| timeouts.dfy | ptw32_relmillisecs.c |
| chunk.dfy | the copy and paste branches of build.c, calculateOffset of helper.c |
| population.dfy, runs.dfy, sequences.dfy | sums over threads, runs of a state machine, a sequence without one member |

The clock, the outcome of CreateEvent, the steps of other threads and of user destructors,
and the number of failed attempts to lock a key are parameters or left undetermined. Handles
of new events are arbitrary handles not in use.

Where the code falls short of a law, the exact condition is proved: calculateOffset uses
lvlz as the length of a row, and shorts and ints that can overflow
(`Chunk.AddressableIffSquare`); the conversion of a wait to 32 bits makes it inaccurate for
deadlines too far ahead (`Timeouts.WaitIsAccurate`); a robust mutex can leave a thread
parked for ever once an owner has ended and there are three threads or more
(`RobustMutex.RousedExactly`, with the runs `DeathHidesWakeup` and `RefusalHidesWakeup`); a
signaller can still have a token to post when destroy frees the condition variable
(`CondVar.PostIsPendingExactly`, with the run `DestroyOvertakesPost`); and a paste whose range
ends beyond the shorts starts elsewhere (`Chunk.RangeIsMeant`). The
comment in implement.h calls the reuse list a stack; the code makes it a queue, and so does
the model.

## Model

| member | source | states |
|---|---|---|
| McsLock.StepKeepsInv | libs/pthreads4w-code-02fecc211d626f28e05ecbb0c10f739bd36d6442/ptw32_MCS_lock.c:109-308 | every interlocked operation, event wait and event set of flag_set, flag_wait, acquire, release, try_acquire and node_transfer keeps the lock invariant, also while successors are only half linked |
| McsLock.RunsKeepInv | libs/pthreads4w-code-02fecc211d626f28e05ecbb0c10f739bd36d6442/ptw32_MCS_lock.c:109-308 | the invariant holds at the end of every run, for any number of nodes and any interleaving |
| McsLock.HistoryIsNeverRead | libs/pthreads4w-code-02fecc211d626f28e05ecbb0c10f739bd36d6442/ptw32_MCS_lock.c:174-308 | the bookkeeping about tickets, arrivals and grants could be erased: replacing it changes neither which steps are possible nor what they do |
| McsLock.HistoryIsWhatHappened | libs/pthreads4w-code-02fecc211d626f28e05ecbb0c10f739bd36d6442/ptw32_MCS_lock.c:174-262 | an arrival is recorded exactly when a node enters the queue, a grant exactly when its acquire returns with the lock |
| McsLock.Exclusion | libs/pthreads4w-code-02fecc211d626f28e05ecbb0c10f739bd36d6442/ptw32_MCS_lock.c:174-262 | at most one node holds the lock, from its grant until its release passes the lock on, and it is the first of the queue |
| McsLock.QueueIsTheQueued | libs/pthreads4w-code-02fecc211d626f28e05ecbb0c10f739bd36d6442/ptw32_MCS_lock.c:184-194 | the queue holds exactly the nodes between their exchange on the lock word and their hand-over, each once |
| McsLock.LockWordIsTail | libs/pthreads4w-code-02fecc211d626f28e05ecbb0c10f739bd36d6442/ptw32_MCS_lock.c:184-194 | the lock word is the tail of the queue, or 0 when it is empty; each node is linked to its successor unless that successor has yet to write the link through its own predecessor pointer; the tail has no successor |
| McsLock.GrantsFollowArrivals | libs/pthreads4w-code-02fecc211d626f28e05ecbb0c10f739bd36d6442/ptw32_MCS_lock.c:174-262 | ownership passes strictly in the order of the exchanges on the lock word |
| McsLock.TryAcquireIsExact | libs/pthreads4w-code-02fecc211d626f28e05ecbb0c10f739bd36d6442/ptw32_MCS_lock.c:252-262 | try_acquire returns 0 exactly when no node is queued; otherwise only the fields of the caller's own node change |
| McsLock.PointersAreLive | libs/pthreads4w-code-02fecc211d626f28e05ecbb0c10f739bd36d6442/ptw32_MCS_lock.c:188-241 | a node or event that an operation is about to touch belongs to an operation that has not returned; a handle about to be passed to SetEvent is open and its creator is waiting on it |
| McsLock.NextIsSeenAfterItIsSet | libs/pthreads4w-code-02fecc211d626f28e05ecbb0c10f739bd36d6442/ptw32_MCS_lock.c:229-241 | the wait on nextFlag never passes before the successor has linked itself and completed its flag_set |
| McsLock.ParkedNextWakesOnSet | libs/pthreads4w-code-02fecc211d626f28e05ecbb0c10f739bd36d6442/ptw32_MCS_lock.c:109-161 | a thread parked on its nextFlag can wake if and only if its successor's flag_set is complete |
| McsLock.ParkedReadyWakesOnSet | libs/pthreads4w-code-02fecc211d626f28e05ecbb0c10f739bd36d6442/ptw32_MCS_lock.c:109-161 | a thread parked on its readyFlag can wake if and only if its node is first in the queue and no release still owes a SetEvent |
| McsLock.SignalsPrecedeOwnership | libs/pthreads4w-code-02fecc211d626f28e05ecbb0c10f739bd36d6442/ptw32_MCS_lock.c:240-241 | while any node holds the lock, no earlier release is still before its SetEvent call |
| McsLock.ReleasedNodeIsQuiet | libs/pthreads4w-code-02fecc211d626f28e05ecbb0c10f739bd36d6442/ptw32_MCS_lock.c:208-242 | after release, or a transfer away from it, a node is neither read nor written by any step of any other operation, in both the known and the unknown successor branch, so nodes may live on stacks |
| McsLock.ReplaceKeepsQueue | libs/pthreads4w-code-02fecc211d626f28e05ecbb0c10f739bd36d6442/ptw32_MCS_lock.c:281-289 | a transfer without successors puts the new node in the old one's place with one exchange |
| McsLock.MoveKeepsQueue | libs/pthreads4w-code-02fecc211d626f28e05ecbb0c10f739bd36d6442/ptw32_MCS_lock.c:290-307 | a transfer that raced with arrivals leaves the lock held by the new node, the same successors in the same order, the first of them known and its flag already set |
| McsLock.TransferredFlagIsNotAwaited | libs/pthreads4w-code-02fecc211d626f28e05ecbb0c10f739bd36d6442/ptw32_MCS_lock.c:299-306 | from the moving transfer on, in every run, a release or second transfer through the new node never offers an event nor parks on the flag already consumed |
| McsLock.StuckOnlyWhileHeld | libs/pthreads4w-code-02fecc211d626f28e05ecbb0c10f739bd36d6442/ptw32_MCS_lock.c:174-308 | deadlock freedom: when no operation can get further, the lock is free and all nodes idle, or the first node holds it and the others are parked behind it |
| McsLock.UsefulStepsAreBounded | libs/pthreads4w-code-02fecc211d626f28e05ecbb0c10f739bd36d6442/ptw32_MCS_lock.c:174-308 | every step but the callers' own and another turn of the spin loop uses up part of a budget of at most seven for each operation |
| McsLock.HandOffIsBounded | libs/pthreads4w-code-02fecc211d626f28e05ecbb0c10f739bd36d6442/ptw32_MCS_lock.c:174-308 | without new calls every run of useful steps is finite, at most seven for each node |
| McsLock.StepRefinesLock | libs/pthreads4w-code-02fecc211d626f28e05ecbb0c10f739bd36d6442/ptw32_MCS_lock.c:174-308 | seen through the holder alone, every step is a stutter, a grant of the free lock, a release by the holder or a hand-over to the transfer target: the plain lock that the other modules assume |
| CondVar.StepKeepsInv | libs/pthreads4w-code-02fecc211d626f28e05ecbb0c10f739bd36d6442/pthread_cond_wait.c:295-444 | every step of waiting, timing out, being cancelled, signalling, broadcasting and destroying keeps the invariant of algorithm 9 |
| CondVar.RunsKeepInv | libs/pthreads4w-code-02fecc211d626f28e05ecbb0c10f739bd36d6442/pthread_cond_wait.c:295-444 | the invariant holds at the end of every run, for any number of threads |
| CondVar.CountersAccountForWaiters | libs/pthreads4w-code-02fecc211d626f28e05ecbb0c10f739bd36d6442/pthread_cond_wait.c:301-330 | registered threads not yet retired number nWaitersBlocked - nWaitersGone + nWaitersToUnblock in every state, except between the two assignments of the fold, where they number nWaitersBlocked; nWaitersGone is 0 while a signal is owed and otherwise never exceeds nWaitersBlocked |
| CondVar.CountersFit | libs/pthreads4w-code-02fecc211d626f28e05ecbb0c10f739bd36d6442/pthread_cond_wait.c:306-330 | the fold at INT_MAX / 2 keeps all three counters within a 32-bit int for up to 2^30 threads |
| CondVar.SignalsAreNotLost | libs/pthreads4w-code-02fecc211d626f28e05ecbb0c10f739bd36d6442/pthread_cond_signal.c:92-151 | tokens available, about to be posted or taken by unretired waiters always cover the signals owed; the surplus is exactly the steals less the spurious wakeups |
| CondVar.SignalPromises | libs/pthreads4w-code-02fecc211d626f28e05ecbb0c10f739bd36d6442/pthread_cond_signal.c:97-121 | a signal is promised to exactly one unsignalled waiter, a broadcast to all of them, and to nobody when there is none |
| CondVar.SignalPromisesBehindGate | libs/pthreads4w-code-02fecc211d626f28e05ecbb0c10f739bd36d6442/pthread_cond_signal.c:116-138 | the same once the signaller has closed the gate itself, where there is always a waiter to promise to |
| CondVar.GateIsClosedWhileSignalling | libs/pthreads4w-code-02fecc211d626f28e05ecbb0c10f739bd36d6442/pthread_cond_wait.c:332-345 | semBlockLock stays in {0, 1}; it is closed, and nobody registers, from the first signal until the last signalled waiter posts it |
| CondVar.GateWaitIsSafe | libs/pthreads4w-code-02fecc211d626f28e05ecbb0c10f739bd36d6442/pthread_cond_wait.c:301-320 | a thread waiting for the gate inside mtxUnblockLock waits only for a thread outside it that is about to open the gate |
| CondVar.OpensSoonOpens | libs/pthreads4w-code-02fecc211d626f28e05ecbb0c10f739bd36d6442/pthread_cond_wait.c:388-400 | such a thread opens the gate within two steps that wait for nothing |
| CondVar.GateWaitEnds | libs/pthreads4w-code-02fecc211d626f28e05ecbb0c10f739bd36d6442/pthread_cond_wait.c:388-400 | among whatever steps of others, a step of that thread is always possible and brings it nearer to opening the gate or opens it, while the waiting thread and the mutex stay as they are |
| CondVar.DestroyFreesOnlyWhenUnused | libs/pthreads4w-code-02fecc211d626f28e05ecbb0c10f739bd36d6442/pthread_cond_destroy.c:167-197 | the freeing branch is taken exactly when no registered waiter remains, and then nobody has to post the gate and nobody is inside it or the mutex |
| CondVar.BusyDestroyChangesNothing | libs/pthreads4w-code-02fecc211d626f28e05ecbb0c10f739bd36d6442/pthread_cond_destroy.c:140-178 | a destroy that returns EBUSY, by either test and without steps of others in between, leaves counters, semaphores and mutex as they were |
| CondVar.DestroyTouchesOnlyLocks | libs/pthreads4w-code-02fecc211d626f28e05ecbb0c10f739bd36d6442/pthread_cond_destroy.c:140-178 | among whatever steps of others, no step of a destroy but the freeing one changes more than the gate and the mutex |
| CondVar.FreedResidue | libs/pthreads4w-code-02fecc211d626f28e05ecbb0c10f739bd36d6442/pthread_cond_destroy.c:182-197 | when the object is freed every other thread is outside, has only just called, or is a signaller before its last post, whose tokens are a surplus |
| CondVar.PostIsPendingExactly | libs/pthreads4w-code-02fecc211d626f28e05ecbb0c10f739bd36d6442/pthread_cond_destroy.c:182-197 | such a signaller exists at the freeing exactly if the steals, less the spurious wakeups, exceed the tokens on the queue; never without steals |
| CondVar.DestroyOvertakesPost | libs/pthreads4w-code-02fecc211d626f28e05ecbb0c10f739bd36d6442/pthread_cond_signal.c:140-146 | a run of three threads or more in which it happens: a waiter gives up with the signal that is still to be posted, and destroy frees the object |
| CondVar.StuckOnlyWhenIdle | libs/pthreads4w-code-02fecc211d626f28e05ecbb0c10f739bd36d6442/pthread_cond_wait.c:295-444 | deadlock freedom: a stuck state owes no signal, has the gate open and the mutex free, and only waiters for whom there is no token |
| CondList.List.Append | libs/pthreads4w-code-02fecc211d626f28e05ecbb0c10f739bd36d6442/pthread_cond_init.c:144-165 | appends a condition variable to the well-formed list of all others |
| CondList.List.Unlink | libs/pthreads4w-code-02fecc211d626f28e05ecbb0c10f739bd36d6442/pthread_cond_destroy.c:199-217 | unlinks from any position; what remains is the well-formed list of the others in order |
| CondList.List.UnlinkAt | libs/pthreads4w-code-02fecc211d626f28e05ecbb0c10f739bd36d6442/pthread_cond_destroy.c:199-217 | follows no null pointer and repairs links, head and tail for the list without its k-th member |
| Mutex.StepKeepsInv | libs/pthreads4w-code-02fecc211d626f28e05ecbb0c10f739bd36d6442/pthread_mutex_lock.c:80-147 | every step of lock, timed lock, trylock and unlock of the normal, recursive and errorcheck kinds keeps the invariant |
| Mutex.RunsKeepInv | libs/pthreads4w-code-02fecc211d626f28e05ecbb0c10f739bd36d6442/pthread_mutex_lock.c:80-147 | the invariant holds at the end of every run |
| Mutex.Exclusion | libs/pthreads4w-code-02fecc211d626f28e05ecbb0c10f739bd36d6442/pthread_mutex_unlock.c:68-113 | ownership is unique, lock_idx is nonzero exactly while a thread owns the mutex or is winning or leaving it, and recursive_count is the owner's acquisitions less its releases |
| Mutex.OwnerTestIsExact | libs/pthreads4w-code-02fecc211d626f28e05ecbb0c10f739bd36d6442/pthread_mutex_unlock.c:90-112 | the unlocked comparison of ownerThread says exactly whether the caller holds the mutex, in lock, trylock and unlock |
| Mutex.WakeupIsNotLost | libs/pthreads4w-code-02fecc211d626f28e05ecbb0c10f739bd36d6442/pthread_mutex_timedlock.c:141-201 | while a thread is parked and lock_idx is not -1, the event is set, about to be set, or some thread is about to exchange in -1, despite arrivals that overwrite -1 and waiters that time out |
| Mutex.StepRefinesLock | libs/pthreads4w-code-02fecc211d626f28e05ecbb0c10f739bd36d6442/pthread_mutex_lock.c:80-147 | seen through the holder alone, every step is a stutter, an acquisition of the free mutex or a release by the holder, which has given back every nested acquisition; only the holder is given or gives back an acquisition |
| Mutex.StuckOnlyWhileHeld | libs/pthreads4w-code-02fecc211d626f28e05ecbb0c10f739bd36d6442/pthread_mutex_lock.c:80-147 | deadlock freedom: parked threads without a step left mean that some thread still holds the mutex |
| RwLock.StepKeepsInv | libs/pthreads4w-code-02fecc211d626f28e05ecbb0c10f739bd36d6442/pthread_rwlock_wrlock.c:78-135 | every step of rdlock, wrlock, timedwrlock, trywrlock and unlock keeps the invariant |
| RwLock.RunsKeepInv | libs/pthreads4w-code-02fecc211d626f28e05ecbb0c10f739bd36d6442/pthread_rwlock_wrlock.c:78-135 | the invariant holds at the end of every run |
| RwLock.WriterExcludesAll | libs/pthreads4w-code-02fecc211d626f28e05ecbb0c10f739bd36d6442/pthread_rwlock_wrlock.c:92-135 | a writer excludes every reader and every other writer |
| RwLock.CountsAccountForReaders | libs/pthreads4w-code-02fecc211d626f28e05ecbb0c10f739bd36d6442/pthread_rwlock_rdlock.c:81-106 | active readers number nShared - nCompleted, or -nCompleted while a writer drains, and the counts stay within an int |
| RwLock.UnlockTakesOwnBranch | libs/pthreads4w-code-02fecc211d626f28e05ecbb0c10f739bd36d6442/pthread_rwlock_unlock.c:73-97 | the unlocked read of nExclusiveAccessCount always selects the caller's own branch |
| RwLock.TestMeetsNoWriter | libs/pthreads4w-code-02fecc211d626f28e05ecbb0c10f739bd36d6442/pthread_rwlock_trywrlock.c:93-119 | behind both mutexes the count of writers is 0, so trywrlock never returns with the mutexes still locked |
| RwLock.DrainingOnlyDecreases | libs/pthreads4w-code-02fecc211d626f28e05ecbb0c10f739bd36d6442/pthread_rwlock_timedwrlock.c:96-128 | from when a writer waits until it enters or gives up, no reader enters and active readers only decrease |
| RwLock.SignalExactlyAtZero | libs/pthreads4w-code-02fecc211d626f28e05ecbb0c10f739bd36d6442/pthread_rwlock_unlock.c:81-86 | a completing reader signals exactly when it was the last that a waiting writer drained |
| RwLock.DrainedWriterIsWoken | libs/pthreads4w-code-02fecc211d626f28e05ecbb0c10f739bd36d6442/pthread_rwlock_timedwrlock.c:110-128 | a waiting writer with no reader left has been signalled or is about to be |
| RwLock.GivingUpRestoresReaders | libs/pthreads4w-code-02fecc211d626f28e05ecbb0c10f739bd36d6442/ptw32_rwlock_cancelwrwait.c:46-54 | a writer that times out or is cancelled restores the exact number of readers and frees both mutexes |
| RwLock.GivingUpAmongOthers | libs/pthreads4w-code-02fecc211d626f28e05ecbb0c10f739bd36d6442/ptw32_rwlock_cancelwrwait.c:46-54 | among whatever steps of others, the counts stay as restored until the inner mutex is freed, and each mutex is the leaving writer's own until it frees it |
| RwLock.StuckOnlyWhileHeld | libs/pthreads4w-code-02fecc211d626f28e05ecbb0c10f739bd36d6442/pthread_rwlock_wrlock.c:78-135 | deadlock freedom: once every holder has let go, a state without steps is one without operations in progress |
| Barrier.StepKeepsInv | libs/pthreads4w-code-02fecc211d626f28e05ecbb0c10f739bd36d6442/pthread_barrier_wait.c:59-108 | every step of a barrier wait keeps the invariant, for any height n >= 1 |
| Barrier.RunsKeepInv | libs/pthreads4w-code-02fecc211d626f28e05ecbb0c10f739bd36d6442/pthread_barrier_wait.c:59-108 | the invariant holds at the end of every run, over any number of rounds |
| Barrier.HistoryIsRounds | libs/pthreads4w-code-02fecc211d626f28e05ecbb0c10f739bd36d6442/pthread_barrier_wait.c:59-108 | the history is a sequence of rounds of exactly n arrivals and then n departures, of which exactly the last returns PTHREAD_BARRIER_SERIAL_THREAD |
| Barrier.LeaversArrived | libs/pthreads4w-code-02fecc211d626f28e05ecbb0c10f739bd36d6442/pthread_barrier_wait.c:92-97 | whoever leaves a round was counted into that same round |
| Barrier.RoundRestoresBarrier | libs/pthreads4w-code-02fecc211d626f28e05ecbb0c10f739bd36d6442/pthread_barrier_wait.c:62-106 | after each round height and semaphore have their initial values and nobody is inside |
| Barrier.DecrementIsExclusive | libs/pthreads4w-code-02fecc211d626f28e05ecbb0c10f739bd36d6442/pthread_barrier_wait.c:62-95 | the plain decrement never runs beside an interlocked increment or a post |
| Barrier.ProxyIsReleasedOnce | libs/pthreads4w-code-02fecc211d626f28e05ecbb0c10f739bd36d6442/pthread_barrier_wait.c:69-101 | the proxy node is released by one thread only, the last out, while it holds the lock |
| Barrier.StuckOnlyBelowHeight | libs/pthreads4w-code-02fecc211d626f28e05ecbb0c10f739bd36d6442/pthread_barrier_wait.c:59-108 | when no thread can move, the lock is free and fewer than n threads wait |
| RobustList.Add | libs/pthreads4w-code-02fecc211d626f28e05ecbb0c10f739bd36d6442/pthread_mutex_consistent.c:121-143 | the acquired mutex becomes the head of its owner's list |
| RobustList.Remove | libs/pthreads4w-code-02fecc211d626f28e05ecbb0c10f739bd36d6442/pthread_mutex_consistent.c:147-167 | removal from any position leaves the owner's well-formed list of the others |
| RobustList.Drain | libs/pthreads4w-code-02fecc211d626f28e05ecbb0c10f739bd36d6442/pthread_win32_attach_detach_np.c:237-250 | the loop at thread exit ends with an empty list and every mutex on it abandoned |
| RobustList.System.Acquired | libs/pthreads4w-code-02fecc211d626f28e05ecbb0c10f739bd36d6442/pthread_mutex_consistent.c:121-143 | the lists of all threads stay exactly the robust mutexes that each owns, when one acquires |
| RobustList.System.Released | libs/pthreads4w-code-02fecc211d626f28e05ecbb0c10f739bd36d6442/pthread_mutex_consistent.c:147-167 | the same when one releases, in any order |
| RobustList.System.Exit | libs/pthreads4w-code-02fecc211d626f28e05ecbb0c10f739bd36d6442/pthread_win32_attach_detach_np.c:237-250 | the same when a thread ends: its mutexes are abandoned and nobody else's are touched |
| RobustMutex.StepKeepsInv | libs/pthreads4w-code-02fecc211d626f28e05ecbb0c10f739bd36d6442/pthread_mutex_lock.c:149-271 | every step of lock, trylock, unlock, consistent and thread exit on a robust mutex keeps the invariant |
| RobustMutex.RunsKeepInv | libs/pthreads4w-code-02fecc211d626f28e05ecbb0c10f739bd36d6442/pthread_mutex_lock.c:149-271 | the invariant holds at the end of every run |
| RobustMutex.Exclusion | libs/pthreads4w-code-02fecc211d626f28e05ecbb0c10f739bd36d6442/pthread_mutex_consistent.c:82-105 | at most one live thread holds the mutex, also across deaths and inheritances, and it is the one named by ownerThread |
| RobustMutex.OneHeirPerDeath | libs/pthreads4w-code-02fecc211d626f28e05ecbb0c10f739bd36d6442/pthread_mutex_consistent.c:82-105 | each owner death is answered by at most one EOWNERDEAD, and by one before the next death |
| RobustMutex.HeirIsOnlyOwner | libs/pthreads4w-code-02fecc211d626f28e05ecbb0c10f739bd36d6442/pthread_mutex_consistent.c:82-105 | the thread that gets EOWNERDEAD is alone with the mutex and becomes its only owner |
| RobustMutex.OwnerTestIsExact | libs/pthreads4w-code-02fecc211d626f28e05ecbb0c10f739bd36d6442/pthread_mutex_unlock.c:126-126 | the unlocked comparison of ownerThread says exactly whether the caller holds the robust mutex |
| RobustMutex.AddingIsUnowned | libs/pthreads4w-code-02fecc211d626f28e05ecbb0c10f739bd36d6442/pthread_mutex_consistent.c:121-143 | a thread about to add the mutex to its list adds one that no live thread owns |
| RobustMutex.LeavingIsOwner | libs/pthreads4w-code-02fecc211d626f28e05ecbb0c10f739bd36d6442/pthread_mutex_consistent.c:147-167 | a thread about to take the mutex off the owner's list is the owner |
| RobustMutex.LostExactlyWhen | libs/pthreads4w-code-02fecc211d626f28e05ecbb0c10f739bd36d6442/pthread_mutex_lock.c:171-199 | the law that parked threads are roused is lost by one step only: when the last roused thread leaves its wait because the mutex is inherited or not recoverable |
| RobustMutex.DeathHidesWakeup | libs/pthreads4w-code-02fecc211d626f28e05ecbb0c10f739bd36d6442/pthread_win32_attach_detach_np.c:237-250 | a run, for every kind and three threads or more, in which one SetEvent serves an unlock and a death, and a thread sleeps on at a free and consistent mutex |
| RobustMutex.RefusalHidesWakeup | libs/pthreads4w-code-02fecc211d626f28e05ecbb0c10f739bd36d6442/pthread_mutex_lock.c:171-199 | a run in which a woken thread is turned away by the inheritance test without passing the wakeup on, and another sleeps on at a free mutex |
| RobustMutex.ForsakenForEver | libs/pthreads4w-code-02fecc211d626f28e05ecbb0c10f739bd36d6442/pthread_mutex_lock.c:149-199 | a thread parked without an event at a mutex that is not recoverable, while nobody owns it and nobody is past the entry tests, sleeps on in every run that follows; the run of RefusalHidesWakeup ends in such a state |
| RobustMutex.RousedExactly | libs/pthreads4w-code-02fecc211d626f28e05ecbb0c10f739bd36d6442/pthread_mutex_lock.c:171-199 | parked threads are always roused if and only if no owner ends or there are at most two threads |
| RobustMutex.NeverFreedInconsistent | libs/pthreads4w-code-02fecc211d626f28e05ecbb0c10f739bd36d6442/pthread_mutex_unlock.c:126-163 | whenever the mutex is freed, its state has been made consistent or marked not recoverable |
| KeyGrid.Grid.ChainsCross | libs/pthreads4w-code-02fecc211d626f28e05ecbb0c10f739bd36d6442/implement.h:438-543 | an association is in its thread's chain if and only if it is in its key's, and there is at most one for a thread and a key |
| KeyGrid.Grid.LinksAgree | libs/pthreads4w-code-02fecc211d626f28e05ecbb0c10f739bd36d6442/implement.h:438-543 | all back links agree, and nextAssoc is null or in its own thread's chain |
| KeyGrid.Grid.TkAssocDestroy | libs/pthreads4w-code-02fecc211d626f28e05ecbb0c10f739bd36d6442/ptw32_tkAssocDestroy.c:68-117 | an association leaves both of its chains, and nextAssoc moves on when it pointed there; the grid stays consistent |
| KeyGrid.FromWithout | libs/pthreads4w-code-02fecc211d626f28e05ecbb0c10f739bd36d6442/ptw32_tkAssocDestroy.c:89-96 | the repair of nextAssoc takes the association out of what a traversal has still to visit, and nothing else |
| KeyGrid.Grid.Drop | libs/pthreads4w-code-02fecc211d626f28e05ecbb0c10f739bd36d6442/ptw32_tkAssocDestroy.c:68-117 | what destroying one association means for every thread's chain and traversal |
| KeyGrid.Grid.TkAssocCreate | libs/pthreads4w-code-02fecc211d626f28e05ecbb0c10f739bd36d6442/ptw32_tkAssocCreate.c:82-121 | a new association becomes the head of both of its chains; traversals in progress do not see it |
| KeyGrid.Grid.SetSpecific | libs/pthreads4w-code-02fecc211d626f28e05ecbb0c10f739bd36d6442/pthread_setspecific.c:113-169 | searches the chain, creates an association only if one is needed and missing, stores the value; a value for a live key with a destructor always has its association |
| KeyGrid.Grid.SetSpecificInterleaved | libs/pthreads4w-code-02fecc211d626f28e05ecbb0c10f739bd36d6442/pthread_setspecific.c:113-169 | the same when others start, use and delete keys or end themselves between the locked part and the store: the value that is then stored still has its association, unless the key has been deleted |
| KeyGrid.Grid.KeyDelete | libs/pthreads4w-code-02fecc211d626f28e05ecbb0c10f739bd36d6442/pthread_key_delete.c:77-127 | the loop ends and removes exactly this key's associations, from every thread's chain and traversal |
| KeyGrid.Grid.KeyDeleteInterleaved | libs/pthreads4w-code-02fecc211d626f28e05ecbb0c10f739bd36d6442/pthread_key_delete.c:77-127 | the same loop among whatever steps of other threads: it ends, and no association of the key is left when its storage is released |
| KeyGrid.Grid.KeyCreate | libs/pthreads4w-code-02fecc211d626f28e05ecbb0c10f739bd36d6442/pthread_key_create.c:77-107 | a new key is live, has no associations and the value NULL in every thread |
| KeyGrid.Grid.Advance | libs/pthreads4w-code-02fecc211d626f28e05ecbb0c10f739bd36d6442/ptw32_callUserDestroyRoutines.c:128-161 | the traversal takes the next association and moves nextAssoc past it |
| KeyGrid.Grid.Call | libs/pthreads4w-code-02fecc211d626f28e05ecbb0c10f739bd36d6442/ptw32_callUserDestroyRoutines.c:191-218 | the destructor is called once, with the given value, and whatever it does meanwhile, no other call is made for this thread and its rest to visit only gets shorter |
| KeyGrid.Grid.Visit | libs/pthreads4w-code-02fecc211d626f28e05ecbb0c10f739bd36d6442/ptw32_callUserDestroyRoutines.c:161-231 | one visit clears the value, then calls the destructor exactly once with what it was or, for NULL or after the last permitted pass, calls none and removes exactly this association from both chains; the rest still to visit gets shorter whatever the destructor does |
| KeyGrid.Grid.Pass | libs/pthreads4w-code-02fecc211d626f28e05ecbb0c10f739bd36d6442/ptw32_callUserDestroyRoutines.c:92-232 | one pass ends, leaves the chain empty if it called no destructor, calls each key's destructor at most once, counts the calls it made, and makes the call due for each key that nobody meddles with |
| KeyGrid.Grid.CallUserDestroyRoutines | libs/pthreads4w-code-02fecc211d626f28e05ecbb0c10f739bd36d6442/ptw32_callUserDestroyRoutines.c:92-235 | whatever the destructors do with values and keys, and among steps of other threads that start, use and delete keys or end themselves, it ends within PTHREAD_DESTRUCTOR_ITERATIONS + 1 passes with an empty chain and NULL for every live key with a destructor; the log shows at most PTHREAD_DESTRUCTOR_ITERATIONS calls for each key, and for every key that is not deleted and for which it shows no store by this thread exactly one call, with the value at the start, if there was one, else none |
| ThreadReuse.Reuse.Pop | libs/pthreads4w-code-02fecc211d626f28e05ecbb0c10f739bd36d6442/ptw32_reuse.c:82-112 | takes the oldest struct off the list, with the handle it carries |
| ThreadReuse.Reuse.Push | libs/pthreads4w-code-02fecc211d626f28e05ecbb0c10f739bd36d6442/ptw32_reuse.c:120-158 | appends a struct as the newest of a first-in first-out list and advances its counter, which wraps at 32 bits |
| ThreadReuse.Reuse.Obtain | libs/pthreads4w-code-02fecc211d626f28e05ecbb0c10f739bd36d6442/ptw32_new.c:53-75 | the oldest struct waiting for reuse, or a fresh one with counter 0 |
| ThreadReuse.Reuse.New | libs/pthreads4w-code-02fecc211d626f28e05ecbb0c10f739bd36d6442/ptw32_new.c:46-102 | a handle never issued before, unless its struct has been recycled 2^32 times, by a call that nobody interrupts |
| ThreadReuse.Threads.NewAmongOthers | libs/pthreads4w-code-02fecc211d626f28e05ecbb0c10f739bd36d6442/ptw32_new.c:46-102 | the same when between the pop and the return others begin, finish and abandon calls of their own and destroy threads, in any order: nobody else is given the struct meanwhile, and the handle is new |
| ThreadReuse.HandlesAreDifferent | libs/pthreads4w-code-02fecc211d626f28e05ecbb0c10f739bd36d6442/ptw32_new.c:46-102 | while no struct has been recycled 2^32 times, all handles ever issued are pairwise different |
| ThreadReuse.StaleHandleIsDetected | libs/pthreads4w-code-02fecc211d626f28e05ecbb0c10f739bd36d6442/ptw32_reuse.c:129-142 | a handle of a destroyed thread differs from every later handle to the same struct in its x field alone |
| Chunk.AddressableIffSquare | helper.c:214-216 | with short parameters and an int result, block addresses are in bounds and one-to-one if and only if the level has no block, or is square in x and z or one block deep in z, and its coordinates are shorts and its addresses ints |
| Chunk.OffsetInBounds | helper.c:214-216 | on a square level the address that the formula means is inside the level |
| Chunk.OffsetInjective | helper.c:214-216 | on a square level different blocks have different addresses |
| Chunk.SquareBoxIsCopyable | build.c:189-209 | every box of such a square level can be copied, if its size is an int and it keeps clear of the coordinate 32767 |
| Chunk.Copy | build.c:133-209 | on any level that has the addresses of the box, the loops write the header and the block at each address at 6 + (dy*ux + dx)*uz + dz, whatever the order of the corners |
| Chunk.Allocate | build.c:166-187 | the size of the buffer and the three lengths in its header |
| Chunk.Load | build.c:42-53 | the front of a chunk file of any length, at most 9000 bytes of it, becomes the front of the paste buffer |
| Chunk.Paste | build.c:42-124 | for any header and any corner, with the exchange of ends that unsigned corners and short lengths lead to, the loops ask for the non-air blocks of the chunk in the order of the flat index, and for nothing if a range is empty |
| Chunk.RangeIsMeant | build.c:70-88 | a length that a copy wrote gives back the range at the corner if and only if the range ends within the shorts; otherwise it starts elsewhere; a length of zero or less gives the range that ends at the corner |
| Chunk.RangeBeyondShorts | build.c:70-88 | at a corner that stands for a negative number a length of two or more below zero pastes nothing |
| Chunk.PlacedExactly | build.c:100-122 | the requests are exactly the chunk's non-air blocks, each at the corner plus its place in the box |
| Chunk.PlacedOnce | build.c:100-122 | no place is asked for twice |
| Chunk.CopyThenPaste | build.c:41-223 | pasting a copied box asks for exactly its non-air blocks, moved to the paste corner, each once |
| Chunk.RoundTrip | build.c:41-223 | a copy followed by a paste does so, for any box that can be copied and whose chunk fits the buffer |
| Timeouts.WaitIsFinite | libs/pthreads4w-code-02fecc211d626f28e05ecbb0c10f739bd36d6442/ptw32_relmillisecs.c:88-152 | the wait is never INFINITE, and positive exactly if the deadline is strictly later |
| Timeouts.WaitIsAccurate | libs/pthreads4w-code-02fecc211d626f28e05ecbb0c10f739bd36d6442/ptw32_relmillisecs.c:88-152 | the wait is within half a millisecond of the gap (smaller positive gaps become 1) exactly for gaps that a finite 32-bit count of milliseconds can express |
| Timeouts.AbsTimeIsAhead | libs/pthreads4w-code-02fecc211d626f28e05ecbb0c10f739bd36d6442/ptw32_relmillisecs.c:164-226 | a deadline made from an interval lies exactly that interval ahead and is normalised |
| Timeouts.IntervalRoundTrip | libs/pthreads4w-code-02fecc211d626f28e05ecbb0c10f739bd36d6442/ptw32_relmillisecs.c:56-226 | an interval of whole milliseconds, made absolute and relative again at one clock reading, is itself |

## Left out

- Sockets, packet relaying, login, console, compression, configuration and text helpers of the tunnel: input and output plumbing.
- The cuboid branch of the builder thread: the same loops as paste without a chunk.
- `paste.halt`: its break leaves the innermost loop only; a halted paste is not modelled, nor are the pauses between requests.
- Chunk.Copy: the corners are unsigned shorts, so no coordinate is negative; boxes that reach the coordinate 32767, where a short loop counter wraps before it exceeds the bound and the loop does not end; boxes with an address outside the level, which the code reads all the same; boxes whose size is not an int.
- Chunk.Paste: chunks whose header asks for more than the 9000 byte buffer holds, which the code reads past; ranges that reach the coordinate 32767, where the loop does not end.
- KeyGrid.Grid.SetSpecific: this contract is of one uninterrupted call; SetSpecificInterleaved states what holds when others run between the locks and the store. Null keys, keys already given to pthread_key_delete, the self key, failed allocation and a failed TlsSetValue.
- KeyGrid.Grid.KeyDelete: null keys; this contract is of one uninterrupted call; KeyDeleteInterleaved states what holds among steps of other threads.
- KeyGrid.Grid.CallUserDestroyRoutines: terminates under the assumption that attempts to lock a key fail only finitely often; a destructor that does not return or ends its thread is not modelled.
- ThreadReuse.Reuse.New: this contract is of one uninterrupted call; Threads.NewAmongOthers states what holds among the calls of others. Sequence numbers are advanced outside the lock, so concurrent calls may number alike; a number is promised to an uninterrupted call only. Failed allocation; the fields of the struct that play no part in handles.
- RobustMutex: the robust half of pthread_mutex_timedlock.c; permanence of the not recoverable state, which a caller past the entry test or a later death can get round; a thread that ends while inside an operation on the mutex.
- RobustList: the links of a list are written by the owning thread alone and without a lock, so one call is one step; reads of a list by others do not occur in the code modelled.
- RwLock: tryrdlock; the timeout path of pthread_rwlock_timedrdlock.c that changes a count without its mutex; INT_MAX readers at once (the number of threads is below INT_MAX).
- CondVar: the caller's own mutex, and what happens after the object is freed: a signaller that has left mtxUnblockLock and not posted yet (CondVar.FreedResidue) would post on a destroyed semaphore.
- Mutex: unlock of a normal mutex by a thread that does not hold it; the mutex's own destruction.
- Barrier: barrier_destroy, and failure of the semaphore operations.
- McsLock: one lock at a time; a node on which a release is still before its SetEvent call is not reused by its own thread, which is inside that call.
- Timeouts.WaitIsFinite: negative tv_nsec, which POSIX excludes, and overflow of 64-bit products.
- Timeouts.WaitIsAccurate: negative tv_nsec, which POSIX excludes, and overflow of 64-bit products; the branch for systems without millisecond clocks.
- Concurrent objects are transition systems over values, not classes: aliasing between objects, memory layout and torn reads of multi-word handles are not captured, and interlocked operations are taken as sequentially consistent.
- Fairness: bounded hand-off is proved step by step (`McsLock.HandOffIsBounded`); that the scheduler eventually runs a spinning thread's successor is assumed of the platform.
- Failed CreateEvent in flag_wait, failed semaphore operations, invalid handles, statically initialised objects, attributes, priorities, affinity, spin locks.
- Asynchronous cancellation by rewriting thread contexts, structured exceptions, library attachment and loading: foreign calls.
