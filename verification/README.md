# Verified models of the synchronisation protocols and concurrent data structures

This project models, in Dafny, the hand-written synchronisation code of the repository and proves what it is for:
the no-starve mutex, the two readers-writers locks, the barrier, the hand-over-hand linked list, the two-lock queue, the
sloppy counter, and the byte accounting of the kernel buffer device.

Every program is a step machine over any number of threads. A module declares

* `Memory`, the fields of the C structure (and history fields, which no statement reads);
* `Pc`, one program counter for each shared load, store, wait, post, lock and unlock, annotated with its source line,
  and `Thread`, a program counter with the live local variables and what the thread has still to do;
* `Enabled` and `Execute`, what a thread's next statement waits for and does, and `Next`, the step of a chosen thread;
* an inductive invariant `Inv` over all program counters, with `InvKept`: every statement of every thread keeps it;
* `WaitsExactly`: in every reachable state a thread waits exactly for those the code makes it wait for;
* theorems about every run, for any number of threads, loop counts, programs, thresholds and schedules;
* a class with the fields of the C structure, whose methods execute the C statements in place and are proved to do
  exactly what `Execute` says.

A run is any sequence of scheduler choices; choosing a thread that cannot step changes nothing, so no theorem
assumes a fair or sensible schedule. The memory is sequentially consistent. Semaphores are weak: any waiter may be the
one that gets through. `x++` and `x += y` on shared variables are a load and a store, and that no update is lost is
proved, not assumed. `Census` counts threads (sums of weights over the threads), `Runs` holds runs and their events,
`Primitives` addresses, pointers, mutexes that know their holder, and logs of calls. `RoomRuns` continues
`ReaderWriter`: the runs of the two locks are exactly those of one abstract room.

The two readers-writers locks differ in the turnstile only, so `ReaderWriter` is one machine with a flag, and the two
directions of the device driver are the same code with the atomics exchanged, so `BufferDriver` is one machine whose
calls have a side; the methods of `RwLock` and `Device` spell out the C functions. Integers are unbounded.

Three properties hold only on one side of a line that the code draws, and each is proved on both sides. The bypass bound
of the no-starve mutex holds from the successful wait of line 46 on: before it, the weak semaphore `mutex` lets one
thread enter any number of times ahead (`NoStarveMutex.BypassExactly`). The bound for writers holds from the turnstile
on, and before it the weak semaphore `turnstile` does the same (`ReaderWriter.DelayExactly`). And in the driver the
bytes copied never cross, but the file positions do, because a position is updated after both atomics;
`BufferDriver.PostedExactly` says exactly when, and `ReadsGetAhead` and `WritesGetAhead` are runs in which they have.

## Model

| member | source | states |
|---|---|---|
| NoStarveMutex.InvKept | Mutual Exclusion Problems/mutex-nostarve.c:45-74 | every statement of every thread keeps the invariant: both semaphore counts and both waiting-room counts are exactly the threads standing where they should, loaded values are current, an open second turnstile has somebody waiting for it, and an open first turnstile somebody in the first room or nobody in the second |
| NoStarveMutex.MutualExclusion | Mutual Exclusion Problems/mutex-nostarve.c:50-74 | in every reachable state the turnstiles and the threads between a wait and the matching post make one token; no two threads are in the critical section or about to access the same counter, so the unlocked `warteraum2` is race-free |
| NoStarveMutex.WaitsExactly | Mutual Exclusion Problems/mutex-nostarve.c:46-62 | in every reachable state an unfinished thread can step if and only if no other thread bars it: at lines 46 and 52 whoever holds `mutex`; at a turnstile whoever holds the token, or, with the other turnstile open, somebody who can pass that one or is on its way to it; nowhere else does a thread wait |
| NoStarveMutex.BoundedBypass | Mutual Exclusion Problems/mutex-nostarve.c:46-74 | from the successful wait for `mutex` at line 46 until the thread passes the second turnstile, no other thread enters more than twice and at most 2(N-1) entries happen; past the first turnstile the bounds are once and N-1 |
| NoStarveMutex.Overtake | Mutual Exclusion Problems/mutex-nostarve.c:46 | for any rounds and any two threads there is a run in which one of them enters as often as it asks for while the other waits at line 46, where it has as many turns and finds `mutex` taken each time |
| NoStarveMutex.BypassExactly | Mutual Exclusion Problems/mutex-nostarve.c:45-74 | for every N >= 2, the entries ahead of a thread on its way in are bounded, over all rounds, runs and continuations, if and only if it has got past the wait of line 46 |
| NoStarveMutex.Batch | Mutual Exclusion Problems/mutex-nostarve.c:55-73 | from the moment a thread sees `warteraum1` = 0 until a release reopens turnstile 1 nobody passes turnstile 1, and the threads that pass turnstile 2 are those that were waiting for it, each once; when a thread is about to reopen, all of them have passed |
| NoStarveMutex.EveryEntry | Mutual Exclusion Problems/mutex-nostarve.c:45-90 | in every run, the entries a thread has made and those it has yet to make are the acquisitions it was asked for |
| NoStarveMutex.Completion | Mutual Exclusion Problems/mutex-nostarve.c:45-90 | no deadlock and no lost increment: a run executes at most 20 statements per acquisition, and a state in which no thread can step is one in which all have finished, each has entered exactly as often as asked for, and `critical` counts every acquisition |
| NoStarveMutex.Progress | Mutual Exclusion Problems/mutex-nostarve.c:46-73 | whenever a thread is unfinished, some thread can step |
| NoStarveMutex.NsMutex.constructor | Mutual Exclusion Problems/mutex-nostarve.c:37-43 | initialisation establishes the invariant |
| NoStarveMutex.NsMutex.Acquire | Mutual Exclusion Problems/mutex-nostarve.c:45-64 | the statements of the acquisition, in place, do what the step machine says and keep the invariant |
| NoStarveMutex.NsMutex.Increment | Mutual Exclusion Problems/mutex-nostarve.c:86 | the load and the store of `critical++` add exactly one to the current value |
| NoStarveMutex.NsMutex.Release | Mutual Exclusion Problems/mutex-nostarve.c:66-74 | the statements of the release, in place, do what the step machine says and keep the invariant |
| ReaderWriter.InvKept | Mutual Exclusion Problems/reader-writer-nostarve.c:38-69 | every statement of every thread, in both locks, keeps the invariant: `readers` is the number of threads between its increment and its decrement, and `writelock` is free, or owned by exactly one writer, or by the readers as a group |
| ReaderWriter.Refinement | Mutual Exclusion Problems/reader-writer-nostarve.c:38-69 | every run of either lock is a run of one abstract room that holds readers or one writer, and every state it reaches is exclusive |
| ReaderWriter.SpecRunIsSafe | Mutual Exclusion Problems/reader-writer-nostarve.c:9-12 | the abstract room never holds readers and a writer, or two writers |
| ReaderWriter.WaitsExactly | Mutual Exclusion Problems/reader-writer-nostarve.c:38-69 | in every reachable state of either lock an unfinished thread can step if and only if no other thread bars it: whoever holds the turnstile or `mutex`, for the first reader a writer inside, for a writer whoever is inside or the last reader who has yet to post `writelock` |
| RoomRuns.ExactlyTheRoom | Mutual Exclusion Problems/reader-writer-nostarve.c:9-12 | the converse of refinement: for either lock, a sequence of rooms is what some run goes through if and only if it is a run of the abstract room in which readers come and go as readers, writers as writers, and nobody more often than it has loops |
| RoomRuns.FullHouse | Mutual Exclusion Problems/reader-writer-nostarve.c:38-48 | readers do not keep each other out: for any number of readers, either lock has a run after which all of them are inside |
| ReaderWriter.ReaderSeesOneValue | Mutual Exclusion Problems/reader-writer-nostarve.c:80-88 | from a reader's entry to its exit `value` does not change, whatever the other threads do |
| ReaderWriter.EveryEntry | Mutual Exclusion Problems/reader-writer-nostarve.c:80-99 | in every run of either lock, the entries a thread has made and those it has yet to make are its loops |
| ReaderWriter.Completion | Mutual Exclusion Problems/reader-writer-nostarve.c:80-99 | no deadlock and no lost update in either lock: where no thread can step, all have finished their loops and entered in each of them, and `value` is writers times loops; runs are bounded |
| ReaderWriter.Progress | Mutual Exclusion Problems/reader-writer.c:28-54 | whenever a thread is unfinished some thread can step, also when the first reader waits for `writelock` while holding `mutex`, and when a writer posts `turnstile` before `writelock` |
| ReaderWriter.WriterBound | Mutual Exclusion Problems/reader-writer-nostarve.c:38-69 | once a writer has passed the turnstile and until it enters, nobody passes the turnstile, no other writer enters, and the readers that enter are those already past the turnstile and not yet in, each at most once |
| ReaderWriter.Overtake | Mutual Exclusion Problems/reader-writer-nostarve.c:38-62 | for any number of readers, writers and loops there is a run of the no-starve lock in which one reader enters in each of its loops while a writer waits at line 62, where it has as many turns and finds `turnstile` taken each time |
| ReaderWriter.DelayExactly | Mutual Exclusion Problems/reader-writer-nostarve.c:38-69 | for any number of readers and writers, the readers that enter ahead of a writer on its way in are bounded, over all loop counts, runs and continuations, if and only if it has got past the turnstile |
| ReaderWriter.Separation | Mutual Exclusion Problems/reader-writer.c:28-50 | without the turnstile, whatever the loop count, a reachable state has a reader inside and a writer waiting for `writelock` that cannot step in any run in which that reader stays, and in one such run another reader enters in each of its loops |
| ReaderWriter.RwLock.constructor | Mutual Exclusion Problems/reader-writer-nostarve.c:30-36 | initialisation establishes the invariant |
| ReaderWriter.RwLock.AcquireRead | Mutual Exclusion Problems/reader-writer-nostarve.c:38-48 | the statements of the read acquisition, in place, do what the step machine says; a reader inside means no writer inside |
| ReaderWriter.RwLock.ReleaseRead | Mutual Exclusion Problems/reader-writer-nostarve.c:50-58 | the statements of the read release, in place, do what the step machine says and keep the invariant |
| ReaderWriter.RwLock.AcquireWrite | Mutual Exclusion Problems/reader-writer-nostarve.c:60-64 | the statements of the write acquisition, in place, do what the step machine says; the writer enters an empty room and is alone in it |
| ReaderWriter.RwLock.ReleaseWrite | Mutual Exclusion Problems/reader-writer-nostarve.c:66-69 | the statements of the write release, in place, do what the step machine says and keep the invariant |
| ReaderWriter.RwLock.LoopBody | Mutual Exclusion Problems/reader-writer.c:69-80 | the load and the store of `value++` add exactly one to the current value |
| Barrier.InvKept | Mutual Exclusion Problems/barrier.c:42-53 | every statement keeps the invariant: `count` is the threads past their increment, units of `barrier` and threads passing one on are the opening posts made, openers have seen the full count, and once the count is full somebody has opened or will |
| Barrier.NobodyPassesEarly | Mutual Exclusion Problems/barrier.c:42-53 | no thread is past the wait before all N have been counted |
| Barrier.OpenersTested | Mutual Exclusion Problems/barrier.c:47-48 | in every run, the threads that have posted at line 48 or are about to are exactly as many as the tests of line 47 that found all N counted |
| Barrier.WaitsExactly | Mutual Exclusion Problems/barrier.c:44-52 | in every reachable state a thread that is not done waits if and only if somebody else holds `mutex` at line 44, or every unit posted at line 48 is being passed on at line 50 |
| Barrier.Completion | Mutual Exclusion Problems/barrier.c:42-53 | a run executes at most 8 statements per thread, where no thread can step all N have passed, and the semaphore ends with as many units as tests of line 47 found all N counted, between 1 and N |
| Barrier.EveryCount | Mutual Exclusion Problems/barrier.c:42-53 | for every k from 1 to N some run ends, nobody able to step, with exactly k units in the semaphore |
| Barrier.BarrierT.constructor | Mutual Exclusion Problems/barrier.c:33-40 | initialisation establishes the invariant |
| Barrier.BarrierT.Barrier | Mutual Exclusion Problems/barrier.c:42-53 | the statements of `barrier`, in place, do what the step machine says; past the wait, every thread has been counted |
| LinkedList.InvKept | Multithreaded Datastructures/linked-list.c:36-67 | every statement keeps the invariant: the nodes form one chain, a lock is held by exactly the thread that stands there, and of two calls the one that locked the head earlier is further along |
| LinkedList.AppendOrder | Multithreaded Datastructures/linked-list.c:36-67 | in every reachable state the values found by following `next` are the values appended, in exactly the order in which their calls locked the head |
| LinkedList.BranchTaken | Multithreaded Datastructures/linked-list.c:43-63 | a call past the test of line 43 is in the branch of lines 44 to 46 if and only if the list is empty, and in the loop or behind it if and only if it is not |
| LinkedList.ProgramOrder | Multithreaded Datastructures/linked-list.c:69-73 | of every thread, what it has appended followed by what it has still to append is its program: nothing lost, nothing doubled, nothing reordered |
| LinkedList.TraversalIsExact | Multithreaded Datastructures/linked-list.c:53-60 | from any point of a traversal the thread has exactly as many hops to make as there are nodes up to the tail plus calls in front of it |
| LinkedList.WaitsExactly | Multithreaded Datastructures/linked-list.c:40-58 | in every reachable state an unfinished thread waits if and only if another thread stands at the very node it wants to lock, or has yet to unlock it behind itself |
| LinkedList.Progress | Multithreaded Datastructures/linked-list.c:40-65 | whenever a thread is unfinished, some thread can step |
| LinkedList.Completion | Multithreaded Datastructures/linked-list.c:36-73 | runs are bounded, and where no thread can step every thread has finished and the list holds all values, those of each thread in its program's order |
| LinkedList.NodeList.constructor | Multithreaded Datastructures/linked-list.c:29-33 | initialisation establishes the invariant |
| LinkedList.NodeList.AddToList | Multithreaded Datastructures/linked-list.c:36-67 | the next statement of `addToList`, in place, always finds the nodes it names, does what the step machine says and keeps the invariant |
| LinkedList.NodeList.LockFirst | Multithreaded Datastructures/linked-list.c:39-43 | the statements up to the test for the empty list, in place, do what the step machine says |
| LinkedList.NodeList.Traverse | Multithreaded Datastructures/linked-list.c:53-60 | the statements of the loop, in place, do what the step machine says |
| LinkedList.NodeList.Append | Multithreaded Datastructures/linked-list.c:44-65 | the allocation, the link and the last unlock, in place, do what the step machine says |
| TwoLockQueue.InvKept | Multithreaded Datastructures/queue.c:41-64 | every statement keeps the invariant: from `head` the nodes form one chain, the nodes a thread owns are allocated, outside the chain and nobody else's, every allocated node is in the chain or owned, and `tail` is the last node except between the two stores of an enqueue |
| TwoLockQueue.SafeAndFifo | Multithreaded Datastructures/queue.c:41-64 | in every reachable state no freed node has been accessed and none freed twice; whatever addresses the allocator reuses, the node a thread is about to access is the one it means: the last node found by following `next` from `head` when it links, the first one when it reads `next`, and one outside the queue that no other thread owns or is about to access when it frees; the values dequeued followed by those found after `head` are the values linked, in that order |
| TwoLockQueue.TailMayDangle | Multithreaded Datastructures/queue.c:43-62 | a concrete run reaches a state, between the two stores of an enqueue, in which a dequeue has freed the node `tail` still points to, so the exception in the invariant is needed |
| TwoLockQueue.Linearizes | Multithreaded Datastructures/queue.c:41-64 | each operation takes effect in one statement: an enqueue appends its argument, a dequeue takes the oldest value, a dequeue that reads NULL in `next` does so while the queue is empty, and no other statement changes the queue |
| TwoLockQueue.WaitsExactly | Multithreaded Datastructures/queue.c:41-54 | in every reachable state an unfinished thread waits if and only if another thread holds the lock of the end it works on; an allocation waits for nobody and may return any address that is not allocated |
| TwoLockQueue.EveryDequeue | Multithreaded Datastructures/queue.c:52-64 | in every run, of every thread, the values taken, the times it read NULL in `next` of an empty queue, and the dequeues it has yet to serve so are the dequeues of its program |
| TwoLockQueue.AllDequeues | Multithreaded Datastructures/queue.c:52-64 | the same account for all threads together |
| TwoLockQueue.ProgramOrder | Multithreaded Datastructures/queue.c:66-74 | of every thread, what it has linked followed by what it has still to enqueue is the sequence of values its program enqueues |
| TwoLockQueue.Completion | Multithreaded Datastructures/queue.c:41-74 | a run executes at most 7 statements per operation, and where no thread can step all have finished, each has linked exactly what its program enqueues in that order, each of its dequeues took a value or found the queue empty, and exactly the dummy and one node per value not dequeued are allocated |
| TwoLockQueue.Queue.constructor | Multithreaded Datastructures/queue.c:30-39 | initialisation establishes the invariant |
| TwoLockQueue.Queue.Enqueue | Multithreaded Datastructures/queue.c:41-48 | the statements of `enqueue`, in place, do what the step machine says, given that the node they access is allocated |
| TwoLockQueue.Queue.Dequeue | Multithreaded Datastructures/queue.c:52-64 | the statements of `dequeue`, in place, do what the step machine says, given that the node they access is allocated |
| TwoLockQueue.Queue.Step | Multithreaded Datastructures/queue.c:41-64 | in a valid queue the node a statement accesses is always allocated, and the queue stays valid |
| SloppyCounter.InvKept | Multithreaded Datastructures/sloppy-counter.c:34-52 | every statement keeps the invariant: a local lock is held by exactly the thread in that increment, local counts stay below the threshold or reach it under their lock, and every increment of an id is in one of its flushes or not flushed yet |
| SloppyCounter.SloppyBound | Multithreaded Datastructures/sloppy-counter.c:34-52 | in every reachable state the value plus what is not flushed is exactly the increments performed, the value is a multiple of the threshold, and it lags by at most ids times threshold, or ids times (threshold - 1) when no thread stands between its increment and its flush |
| SloppyCounter.GetIsClose | Multithreaded Datastructures/sloppy-counter.c:47-52 | what `get` is about to return lags behind the increments performed by at most ids times threshold and never leads |
| SloppyCounter.WaitsExactly | Multithreaded Datastructures/sloppy-counter.c:34-51 | in every reachable state an unfinished thread waits if and only if another increment of the same id is under way at line 35, or another thread holds the global lock at lines 38 and 48 |
| SloppyCounter.EveryOperation | Multithreaded Datastructures/sloppy-counter.c:34-52 | in every run, each operation of a thread's program stores exactly one increment or reads the value exactly once, or has yet to do so |
| SloppyCounter.Completion | Multithreaded Datastructures/sloppy-counter.c:34-58 | a run executes at most 11 statements per operation, and the final value does not depend on the interleaving: of the increments asked for on each id, all but the remainder modulo the threshold |
| SloppyCounter.Counter.constructor | Multithreaded Datastructures/sloppy-counter.c:24-32 | the loop clears every local count and lock, and initialisation establishes the invariant |
| SloppyCounter.Counter.Increment | Multithreaded Datastructures/sloppy-counter.c:34-45 | the statements of `increment`, in place, do what the step machine says |
| SloppyCounter.Counter.Get | Multithreaded Datastructures/sloppy-counter.c:47-52 | the statements of `get`, in place, do what the step machine says |
| SloppyCounter.Counter.Step | Multithreaded Datastructures/sloppy-counter.c:34-52 | in a valid counter every index a statement uses is in bounds, and the counter stays valid |
| BufferDriver.InvKept | Kernel Modules/hw5/modules/mybuffer_sync/mybuffer_sync.c:57-72 | every statement keeps the invariant: the atomics and the bytes between them make up the buffer, a count loaded under a lock stays available, and whoever sleeps while its condition holds is about to be woken |
| BufferDriver.Accounting | Kernel Modules/hw5/modules/mybuffer_sync/mybuffer_sync.c:57-106 | in every reachable state the two atomics and the bytes in flight add up to MAX_BUFFER_SIZE, both atomics stay in range, the bytes copied to readers are at most those copied from writers and at least those less the capacity, and outside critical sections a read or a write is possible |
| BufferDriver.PositionsAreBytes | Kernel Modules/hw5/modules/mybuffer_sync/mybuffer_sync.c:65-69 | the file positions together are exactly the bytes posted to them by reads and writes, and on each side the bytes copied are those posted and those between the copy and the post |
| BufferDriver.PostedExactly | Kernel Modules/hw5/modules/mybuffer_sync/mybuffer_sync.c:64-102 | reads have posted no more than writes if and only if what a write has still to post at line 102 is still available or on its way through a read, and writes have posted no more than the capacity ahead of reads if and only if what a read has still to post at line 69 can still be written or is on its way through a write |
| BufferDriver.ReadsGetAhead | Kernel Modules/hw5/modules/mybuffer_sync/mybuffer_sync.c:69-102 | a run in which a read has posted a byte that the write which stored it has not posted yet |
| BufferDriver.WritesGetAhead | Kernel Modules/hw5/modules/mybuffer_sync/mybuffer_sync.c:69-102 | a run in which writes have posted twice the capacity and reads nothing |
| BufferDriver.OnlyRightlyAsleep | Kernel Modules/hw5/modules/mybuffer_sync/mybuffer_sync.c:57-72 | no lost wake-up: where no thread can step, every unfinished thread sleeps with its condition false, all on one side, readers at an empty buffer or writers at a full one |
| BufferDriver.WaitsExactly | Kernel Modules/hw5/modules/mybuffer_sync/mybuffer_sync.c:57-62 | in every reachable state an unfinished thread cannot step if and only if it sleeps, or spins while another call of its side is in the critical section; if it sleeps while its condition holds, somebody is about to wake it |
| BufferDriver.WokenExactly | Kernel Modules/hw5/modules/mybuffer_sync/mybuffer_sync.c:57-72 | a sleeper is woken by a call of the other side at line 72 or 106, by any of those, and by nothing else |
| BufferDriver.EveryCall | Kernel Modules/hw5/modules/mybuffer_sync/mybuffer_sync.c:52-73 | in every run, of every thread, the calls answered and the one past its copy are the copies made and the refusals; the refusals, each of a nonblocking call that finds nothing to take, are exactly the answers -EAGAIN; and the file position is exactly what the calls have returned and the one about to return will |
| BufferDriver.EveryAnswer | Kernel Modules/hw5/modules/mybuffer_sync/mybuffer_sync.c:52-73 | calls are answered one by one and in order, -EAGAIN only where the call is nonblocking, and otherwise with a number of bytes from 0 to what it asks for |
| BufferDriver.CopiesMost | Kernel Modules/hw5/modules/mybuffer_sync/mybuffer_sync.c:64-66 | a call sets out to copy all that is available to it at its load or all that it asks for, and copies that less what the user copy fails to copy |
| BufferDriver.SoleCallerServed | Kernel Modules/hw5/modules/mybuffer_sync/mybuffer_sync.c:52-66 | where one thread makes all the calls of a side, each of them finds something to take when it comes to copy, a nonblocking one never sleeps, and if all are nonblocking nobody sleeps on that side |
| BufferDriver.NonblockingMaySleep | Kernel Modules/hw5/modules/mybuffer_sync/mybuffer_sync.c:52-57 | with two callers on a side, a run in which a nonblocking call sleeps, because the other took the bytes between the two tests |
| BufferDriver.RunsAreFinite | Kernel Modules/hw5/modules/mybuffer_sync/mybuffer_sync.c:52-107 | no livelock: among N threads, sleeping and waking included, a run executes at most N + 11 statements per call |
| BufferDriver.Device.Read | Kernel Modules/hw5/modules/mybuffer_sync/mybuffer_sync.c:45-74 | the statements of `driver_read`, in place, do what the step machine says |
| BufferDriver.Device.Write | Kernel Modules/hw5/modules/mybuffer_sync/mybuffer_sync.c:76-108 | the statements of `driver_write`, in place, do what the step machine says |
| BufferDriver.Device.Step | Kernel Modules/hw5/modules/mybuffer_sync/mybuffer_sync.c:45-108 | a thread's next statement, in whichever call it is, keeps the invariant |

## Left out

- All `main` functions, thread creation and join, timing, printing and argument parsing: threads and their programs are parameters of the initial state.
- The thread argument in sloppy-counter.c that several threads may share: any assignment of calls to ids is covered, because programs are arbitrary.
- Weak memory, failing allocation and overflow of the C counters.
- The allocator of linked-list.c: nothing is freed there and addresses are compared with NULL only, so nodes are named by the order of allocation.
- The wait queues of the driver beyond their contract: evaluating the condition and going to sleep is one step, and one wake-up wakes every sleeper of its queue at once.
- Signals (`-ERESTARTSYS`), module initialisation and exit, and the contents of the device buffer, which every call reads or writes at position 0.
- Fair schedules: the no-starve results are bounds on what can happen before a waiting thread, together with completion of every run, not liveness under a fairness assumption.
- The other kernel modules, servers, file and aio programs, shell scripts, configuration files and the small demonstration programs of the repository: single-lock or sequential code that would only add easy members.
