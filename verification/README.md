# A verified model of the thread scheduler

The scheduler runs one user thread at a time. A thread that calls `so_fork`, `so_exec`, `so_wait` or
`so_signal` updates the shared `scheduler` structure without any lock, posts the semaphore of the
thread that is to run next, and blocks on its own. This project models that scheduler, from the linked
list up to the interleavings that the operating system may produce, and proves what the hand-off
protocol is for: that it is safe without a lock, that all interleavings give the same schedule, that the
schedule is fair and respects priorities, and when a program shuts down cleanly. Where the code does not
do what its documentation says, the model follows the code, and the theorems say exactly when the
documented behaviour holds.

## Layers

| file | content |
|---|---|
| `LinkedList.dfy` | the singly linked list as a heap class that refines a sequence |
| `PrioQueue.dfy` | the priority queue as a class over that list, refining a stable insertion |
| `StableOrder.dfy` | that insertion on values: sortedness, FIFO among equals, the multi-level queue |
| `Scheduling.dfy` | the scheduler's data as a value and one function for each function of the source |
| `Scheduler.dfy` | the scheduler as a class over real queues and thread records, refining those functions |
| `Conservation.dfy` | what each of those functions does to the set of threads and to the queues' order |
| `SequentialMachine.dfy` | the schedule as one sequential program over finite handler scripts |
| `Effects.dfy` | each of those functions field by field, without naming what it is made of |
| `MachineSafety.dfy`, `ScheduleOrder.dfy` | theorems over whole runs of that program |
| `Interleaving.dfy` | one program counter per thread, one for the main thread, each post and wait a step of its own |
| `MutualExclusion.dfy`, `Refinement.dfy`, `Completion.dfy`, `WorldSafety.dfy`, `DispatchOrder.dfy`, `Allotments.dfy`, `ProgramOrder.dfy`, `Reclaiming.dfy` | theorems over all interleavings |
| `ClientRules.dfy` | programs that break the rules below, and what happens to them |

`Machine` and `World` use the same functions of `Scheduling.dfy` that the methods of the class
`Scheduler` are proved to compute, so the class is the imperative reading of a step and the run theorems
are about what it computes.

## What the theorems say

1. **One token.** In every world that any interleaving reaches, the threads inside handlers or the
   scheduler, the main thread's share, and the counts of all `running` semaphores sum up to one. The
   holder of a permit is always `scheduler->thread`. No rule is asked of the handlers for this. One
   access is made without the token: `so_end` tests `no_threads` while the first thread already runs and
   may be incrementing it. It never reads a zero and commutes with every step a thread can take then.
2. **One schedule.** Each step of each actor is one step of the sequential program or none. Hence any
   two interleavings that run until nobody can move agree on all calls, dispatches and return values.
   Each thread makes exactly the calls of the handler it was forked with, in order.
3. **Termination.** A measure decreases with each step of each actor. Every run can be completed, its
   length is bounded by the size of the scripts, and `end` is posted at most once.
4. **Conservation and priority.** Each thread is in exactly one place, named by its label, `no_threads`
   counts the threads, and no ready thread outranks the running one.
5. **Order.** The ready list is a multi-level queue. Dispatch is FIFO among equals over whole runs,
   whatever happens in between. A ready thread of the running one's priority at index `k` is dispatched
   within `q + Q * k` scheduler calls, where `q` is what the running thread has left. Conversely a
   dispatch, or a refill while only lower priorities are ready, grants the whole configured quantum, and
   a thread with `q` units left is not taken off the processor before `q` scheduler calls, unless it
   waits, leaves or is outranked. All this is proved of the schedule and of what any interleaving logs.
6. **Waiting.** A waiting thread runs again only after a signal on its own device. `so_signal` returns
   exactly the number of threads it woke, and they line up stably behind the ready ones. Every call
   returns what was fixed when it was made, whatever other threads do before it returns.
7. **Shutdown.** `so_end` frees exactly the threads that ended, after they exited and none twice, first
   the one that ran last and then the others in order; so it frees all if and only if nobody is still
   waiting for a device. Of any program at all, no thread is ever lost, and the list
   that `so_end` works off names none twice if and only if each was in one place when `end` was posted.
8. **Binary semaphores.** The Windows version, whose semaphores count to one, has the same runs: no
   release in it ever fails.

## Rules for programs

The theorems hold for a program that follows these rules; each rule appears as a `requires` only where
it is needed.

* The main thread calls `so_init`, makes one `so_fork` with a priority up to 5, and calls `so_end`
  (`README.md:36-47`). All other calls come from handlers. The quantum is at least 1.
* Items 4 and 6, the order theorems in 5 and the first sentence of 7 need that nobody has called `so_wait`
  while no other thread was ready, up to the moment they speak of. `MachineSafety.LoneWait` is that
  condition; a caller can check it before the call.
* Device arguments are below 2^31 (type `Device`), because `so_wait` and `so_signal` compare them as
  signed integers.
* A handler is a finite script of calls (`Script`); forks carry the child's script. Scripts may fork
  with bad priorities and use devices that do not exist; those calls fail as in the source.

## Where the code and its documentation differ

* `README.md:53-54` says that `so_wait` blocks the caller. With nobody ready, `linux/so_scheduler.c:82-89`
  lets the caller go on while it stays in the waiting queue. `PartitionKeptExactly` shows that this is the
  only way a step can duplicate a thread, and `ReclaimsExactly` says when that reaches `so_end`.
  `LoneWaitHangs` gives a program of two calls that then never ends, and `LoneWaitFreesTwice` one of one
  call whose only thread is then freed twice, each under every interleaving.
* `README.md:51-52` says that a thread gives way when its quantum expires. The same branch returns without
  resetting the quantum, so a thread that runs alone can take it below zero, where the test for zero at
  `linux/so_scheduler.c:108` never fires again. `QuantumExpiresExactly` and `QuantumKeptExactly` say when
  the documented behaviour holds; `SoloOverrun` is a program for which it does not.
* `README.md:44-47` says that the main thread is unblocked when all threads have finished, and cleans up.
  It is unblocked when nothing is ready any more; `ShutdownExactly` says when the cleanup completes, and
  `WaiterNeverFreed` gives a program for which it blocks in a join.

## Model

| member | source | states |
|---|---|---|
| LinkedLists.LinkedList.constructor | linux/linkedlist.c:3-8 | a new list is empty and well linked |
| LinkedLists.LinkedList.AddNode | linux/linkedlist.c:10-53 | inserts at the index clamped to the length, changes nothing for a negative index; the chain stays acyclic, `size` its length, `back` its last node, both ends null iff empty |
| LinkedLists.LinkedList.Insert | linux/linkedlist.c:36-52 | the general case puts exactly the new node before the node at the index |
| LinkedLists.LinkedList.RemoveNode | linux/linkedlist.c:55-93 | takes out and returns the very node at the clamped index, all others staying in their order; null exactly for an empty list or a negative index |
| LinkedLists.LinkedList.GetNode | linux/linkedlist.c:95-111 | the very node at the clamped index, so the last one and not null beyond the end |
| LinkedLists.LinkedList.FreeAll | linux/linkedlist.c:118-133 | every element is freed, front first, and the list is empty |
| PrioQueues.SlotByUnique | linux/prio_queue.c:40-46 | only one index has no lower element before it and a lower one at it: any walk that ends there found the slot |
| PrioQueues.PushByExactly | linux/prio_queue.c:25-51 | a push with any comparison is one insertion at that index |
| PrioQueues.PushByPriority | linux/so_scheduler.c:52-55 | with the scheduler's comparison, the generic push is the stable push by priority |
| PrioQueues.PrioQueue.constructor | linux/prio_queue.c:3-23 | a new queue is empty and keeps its comparison |
| PrioQueues.PrioQueue.FindSlot | linux/prio_queue.c:40-46 | the index walk ends at the first element that compares lower, or at the length, although `get_node` never answers null there |
| PrioQueues.PrioQueue.Push | linux/prio_queue.c:25-51 | stable insertion; queue size and list size stay equal |
| PrioQueues.PrioQueue.Pop | linux/prio_queue.c:53-68 | takes out and returns the front; null and no change for an empty queue |
| PrioQueues.PrioQueue.Top | linux/prio_queue.c:70-73 | the front, for the non-empty queue that the source needs here |
| PrioQueues.PrioQueue.Free | linux/prio_queue.c:75-82 | frees all elements, front first |
| StableOrder.PushSorted | linux/prio_queue.c:40-50 | a push keeps the queue sorted, highest priority first |
| StableOrder.PushContents | linux/prio_queue.c:25-51 | a push adds the one thread and loses or duplicates none |
| StableOrder.PushKeepsAhead | linux/prio_queue.c:40-50 | a push lets no thread of at most the same priority overtake another |
| StableOrder.PushKeepsIndex | linux/prio_queue.c:40-50 | a push leaves a thread at its index unless it puts a higher priority in front |
| StableOrder.PushAppendsToLevel | linux/prio_queue.c:40-50 | a push appends to the FIFO queue of the thread's own priority and to no other |
| StableOrder.PopTakesHighestLevel | linux/prio_queue.c:53-68 | a pop takes the head of the highest level that is not empty |
| StableOrder.SortedIsLevels | linux/prio_queue.c:25-68 | a sorted list equals its six per-priority queues from 5 down to 0, one behind the other |
| StableOrder.SortedUnique | linux/prio_queue.c:25-68 | the levels determine the sorted list |
| StableOrder.PushAllIsStableSort | linux/prio_queue.c:25-68 | pushing any sequence into an empty queue yields its stable descending sort |
| StableOrder.RotateLevel | linux/so_scheduler.c:108-113 | pushing a thread behind its equals and popping the front rotates one level and leaves all others |
| Conservation.MarkAsReadyMoves | linux/so_scheduler.c:121-125 | puts exactly the one thread into the queues |
| Conservation.PlanNextMoves | linux/so_scheduler.c:68-75 | moves exactly one thread from the queues onto the processor |
| Conservation.EnrolMoves | linux/so_scheduler.c:198-200 | puts exactly the caller into the queues |
| Conservation.WakeOneMoves | linux/so_scheduler.c:215-216 | a wakeup neither loses nor duplicates a thread |
| Conservation.PlanNextSane | linux/so_scheduler.c:68-75 | with all threads queued and one ready, the new current thread is in no queue, is labelled running, and is outranked by nobody |
| Conservation.CheckSane | linux/so_scheduler.c:78-118 | every branch restores the partition, the labels, the order of the queues and the priority rule |
| Conservation.EnrolUndecided | linux/so_scheduler.c:193-201 | a wait with some thread ready hands over a state in which every thread is accounted for |
| Conservation.WakeAllUndecided | linux/so_scheduler.c:206-218 | so does the whole loop of a signal |
| Conservation.CreateUndecided | linux/so_scheduler.c:166-188 | so does a fork, by the main thread or by another |
| Conservation.TerminateUndecided | linux/so_scheduler.c:156-161 | so does the end of a handler |
| Conservation.ReclaimOrderByIndex | linux/so_scheduler.c:244-250 | the order of reclaiming is the one list with the current thread first, then the ready and the finished ones, then each device's queue, each in its order |
| Effects.InitExactly | linux/so_scheduler.c:134-144 | as many devices as asked for, every queue empty, nobody current, nobody counted |
| Effects.PushExactly | linux/prio_queue.c:25-51 | a push, into any queue, is one insertion at the first lower priority |
| Effects.CheckExactly | linux/so_scheduler.c:78-118 | in every state: exactly when the caller gives way and to whom, whose record becomes what, where the caller goes, when `end` is posted, and that nothing else changes |
| Effects.SwitchGrantsQuantum | linux/so_scheduler.c:68-75 | whoever is dispatched, in whichever branch, runs with the whole quantum |
| Effects.RefillExactly | linux/so_scheduler.c:108-117 | an expired quantum with only lower priorities ready is refilled to the whole; no queue moves and no other record changes |
| Effects.CallExactly | linux/so_scheduler.c:166-229 | each call of a thread before the decision: the caller has one unit less, and exactly the queue and labels of that call change |
| Effects.MainForkExactly | linux/so_scheduler.c:166-188 | a fork by the main thread charges nobody |
| Effects.LeaveExactly | linux/so_scheduler.c:158-159 | the end of a handler changes one label |
| Effects.BootExactly | linux/so_scheduler.c:127-191 | after the first fork the new thread runs its handler with the whole quantum, alone, on the devices asked for |
| MachineSafety.StepSafe | linux/so_scheduler.c:78-233 | each step other than a lone wait keeps partition, labels, order, priority rule, and the agreement of labels with what the threads do |
| MachineSafety.PartitionKeptExactly | linux/so_scheduler.c:82-89 | a step leaves each thread in exactly one place if and only if it is not a wait with nobody ready |
| MachineSafety.BootSafe | linux/so_scheduler.c:127-191 | the first fork of the main thread establishes all of that |
| MachineSafety.ConservationAndPriority | linux/so_scheduler.c:68-220 | after any number of steps each thread is in exactly one place, its label names the place, `no_threads` counts the threads, and nobody ready outranks the running thread |
| MachineSafety.QueuesAreLevels | linux/so_scheduler.c:68-125 | after any number of steps the ready list and each waiting list are multi-level queues |
| ScheduleOrder.SignalWakesExactly | linux/so_scheduler.c:214-216 | the loop empties the one waiting queue, pushes its threads in order onto the ready queue, relabels them and touches nothing else |
| ScheduleOrder.SignalAnswer | linux/so_scheduler.c:206-220 | the result is the number of threads woken; per priority they stand behind those that were ready |
| ScheduleOrder.CallReturns | linux/so_scheduler.c:166-233 | a call that fails returns -1 or `INVALID_TID` at once and changes nothing; any other returns what was fixed at the call, as the first thing its caller does when it runs again: 0 from a wait, the number of threads woken from a signal, the new thread from a fork |
| ScheduleOrder.FifoDispatch | linux/so_scheduler.c:68-125 | over whole runs, a thread that is ready is dispatched before any thread of at most its priority that is not ahead of it |
| ScheduleOrder.EntersBehind | linux/so_scheduler.c:78-125 | a thread that becomes ready by any call goes behind every ready thread of at least its priority |
| ScheduleOrder.FifoFromEntry | linux/so_scheduler.c:68-125 | first in, first out from the entry on: if `b` becomes ready while `a`, of at least its priority, is ready, `a` is dispatched first |
| ScheduleOrder.StepRotates | linux/so_scheduler.c:78-118 | a scheduler call lowers `q + Q * k` of a queuing thread by at least one, and by exactly one if the caller stays runnable |
| ScheduleOrder.RoundRobin | linux/so_scheduler.c:78-118 | while no higher priority takes over, a ready thread of the running one's priority at index `k` runs before `q + Q * k` scheduler calls are over, whoever makes them |
| ScheduleOrder.ExpiryRotatesLevel | linux/so_scheduler.c:108-113 | a quantum that expires with an equal thread first rotates that level by one and leaves the others |
| ScheduleOrder.KeepsProcessor | linux/so_scheduler.c:108-117 | a contended thread with `q >= 1` keeps the processor for the next `q - 1` calls of `so_exec`, each costing one unit, and forever if `q <= 0` |
| ScheduleOrder.GivesWay | linux/so_scheduler.c:108-113 | the call number `q` hands the processor to the first ready thread |
| ScheduleOrder.QuantumExpiresExactly | linux/so_scheduler.c:108-113 | a contended thread that only calls `so_exec` ever gives way if and only if its quantum is still positive |
| ScheduleOrder.QuantumKeptExactly | linux/so_scheduler.c:68-117 | a step keeps the running thread's quantum within 1..Q if and only if it does not spend the last unit with nobody ready |
| ScheduleOrder.QuantumBound | linux/so_scheduler.c:68-117 | hence over whole runs without such a call it stays within 1..Q |
| ScheduleOrder.StepWaiting | linux/so_scheduler.c:193-220 | only a wait adds to a waiting queue and only a signal empties one, each on its own device |
| ScheduleOrder.WaitsForSignal | linux/so_scheduler.c:193-220 | until a signal on its device a waiting thread stays in that queue and does not run |
| MutualExclusion.AdvanceMovesToken | linux/so_scheduler.c:68-118 | each step of each actor moves the one right to touch the scheduler as the posts and waits say |
| MutualExclusion.TokenIsUnique | linux/so_scheduler.c:222-233 | there is only one such right at a time |
| MutualExclusion.RunExtends | linux/so_scheduler.c:149-256 | every step that some actor can take continues the run, so the theorems leave out no interleaving |
| MutualExclusion.SingleToken | linux/so_scheduler.c:68-118 | in every reachable world the working threads, the main thread up to its post, and all `running` counts sum up to one, the holder is the current thread, and no semaphore exceeds one |
| MutualExclusion.UnguardedRead | linux/so_scheduler.c:241-242 | the test of `no_threads` in `so_end`, made without the token, never finds a zero and commutes with every step of a thread |
| MutualExclusion.OneWorker | linux/so_scheduler.c:149-233 | two threads are never inside handlers or the scheduler together |
| Refinement.IssueDecision | linux/so_scheduler.c:193-233 | from the first step of a call on, its decision and its result are determined |
| Refinement.AdvanceRefines | linux/so_scheduler.c:149-256 | each step of each actor is one step of the sequential schedule or none |
| Refinement.InterleavingsRefineSchedule | linux/so_scheduler.c:149-256 | every reachable world stands for a state of the one sequential schedule of the program |
| Refinement.StuckIsOver | linux/so_scheduler.c:82-89 | nobody can move only after the last scheduled thread has exited, its permit unused |
| Refinement.MaximalRunsAgree | linux/so_scheduler.c:149-256 | all complete interleavings agree on calls, dispatches, return values and the final scheduler |
| Completion.AdvanceDecreases | linux/so_scheduler.c:149-256 | each step of each actor decreases a measure |
| Completion.RunsAreBounded | linux/so_scheduler.c:149-256 | no run is longer than the scripts allow |
| Completion.EveryRunEnds | linux/so_scheduler.c:149-256 | every run can be continued until nobody can move, within that bound |
| Completion.EndPostedOnce | linux/so_scheduler.c:82-89 | `end` is posted at most once per run, and only by a terminated current thread with nobody ready |
| Completion.EndReachedExactly | linux/so_scheduler.c:235-242 | when nobody can move, `so_end`, having tested `no_threads`, got past its semaphore if and only if the last scheduled thread is labelled terminated |
| Completion.StuckShutdown | linux/so_scheduler.c:235-250 | when nobody can move, `so_end` has freed the thread that ran last and then the finished ones, in order, and what is left are the threads that wait |
| Completion.ShutdownExactly | linux/so_scheduler.c:235-256 | under every interleaving `end` is posted and taken; exactly the threads that are not waiting are joined and freed, each once, after it exited, the last one first; so all of them if and only if nobody is still waiting |
| WorldSafety.CountersAgree | linux/so_scheduler.c:149-233 | whenever no decision is pending, in any interleaving in which nobody waited alone so far: partition, priority rule, ready and waiting threads at or on the way to their own `sem_wait`, terminated ones past their handler |
| WorldSafety.NoLostWakeup | linux/so_scheduler.c:149-233 | a permit can be taken at once by the thread it is for, except the last post to the thread that ended the run |
| WorldSafety.ReleaseExactly | windows/so_scheduler.c:70-131 | which semaphore a step posts, and that the Windows version is killed exactly when the step would raise it above one |
| WorldSafety.BinarySemaphoresSuffice | windows/so_scheduler.c:70-131 | every run of the counting version is, step for step, one of the version whose releases fail above one, and none fails |
| DispatchOrder.FifoInEveryInterleaving | linux/so_scheduler.c:68-125 | in the log of any interleaving, a thread that was not ahead of a ready one of at least its priority is dispatched only after that one |
| DispatchOrder.RoundRobinInEveryInterleaving | linux/so_scheduler.c:78-118 | in any interleaving, a ready thread of the running one's priority at index `k` is logged as dispatched once threads have run `scheduler_check` `q + Q * k` times, unless a higher priority was dispatched |
| Allotments.DevicesStay | linux/so_scheduler.c:166-220 | over whole runs, a call is refused exactly for a device beyond those of `so_init` or a priority above 5 |
| Allotments.DevicesEverywhere | linux/so_scheduler.c:166-220 | likewise in every world that any interleaving reaches, where the quantum is that of `so_init` too |
| Allotments.DispatchGrantsQuantum | linux/so_scheduler.c:68-75 | in any interleaving, a step that logs a dispatch leaves that thread current with the whole quantum |
| Allotments.KeepsQuantum | linux/so_scheduler.c:78-118 | a thread with `q` units left keeps the processor for its next `q - 1` scheduler calls, each costing one, unless it waits, leaves or is outranked |
| Allotments.RefillLasts | linux/so_scheduler.c:108-117 | after a refill that holds with the whole quantum, against every newcomer of equal priority |
| Allotments.KeepsQuantumInEveryInterleaving | linux/so_scheduler.c:78-118 | likewise in the log of any interleaving: nobody is dispatched before threads have run `scheduler_check` `q` times |
| Allotments.DispatchLasts | linux/so_scheduler.c:68-118 | in any interleaving, a dispatched thread keeps the processor for `Q - 1` scheduler calls |
| ProgramOrder.FirstRunsItsHandler | linux/so_scheduler.c:149-161 | in any interleaving the first thread's calls, made and still to make, are those of the handler the main thread forked |
| ProgramOrder.ChildRunsItsHandler | linux/so_scheduler.c:166-191 | in any interleaving a forked thread's calls are, from then on, those of the handler it was forked with |
| ProgramOrder.ExitedRanItsHandler | linux/so_scheduler.c:149-164 | a thread that exits has made all calls of its handler, in order |
| Reclaiming.NobodyLost | linux/so_scheduler.c:68-220 | after any number of steps of any program each thread has the processor or is in some queue |
| Reclaiming.ReclaimsExactly | linux/so_scheduler.c:235-250 | the list that `so_end` works off stands, by index, in the order current, ready, finished, device 0, 1, ...; it names every forked thread, and none twice if and only if each was in exactly one place when `end` was posted |
| ClientRules.LoneWaitHangs | linux/so_scheduler.c:82-89 | after a wait with nobody ready a program that signals itself blocks `so_end` forever, under every interleaving |
| ClientRules.LoneWaitFreesTwice | linux/so_scheduler.c:244-250 | a thread that waits with nobody ready and returns is joined and freed twice, under every interleaving |
| ClientRules.WaiterNeverFreed | linux/so_scheduler.c:235-250 | a program with a thread that nobody signals frees the other thread and then blocks in a join, under every interleaving |
| ClientRules.SoloOverrun | linux/so_scheduler.c:82-89 | a thread that spent its quantum alone keeps the processor from an equal one however often it calls `so_exec` |
| SchedulerObject.Scheduler.constructor | linux/so_scheduler.c:127-147 | so_init with accepted arguments: the devices asked for, each with an empty queue, nothing current, nothing counted, all queues apart from each other, no semaphore posted |
| SchedulerObject.Scheduler.SoInit | linux/so_scheduler.c:127-147 | -1 and nothing changed exactly when a scheduler exists, more than 256 devices or no quantum are asked for; otherwise 0 and a new scheduler with the quantum and the devices |
| SchedulerObject.Scheduler.MarkAsReady | linux/so_scheduler.c:121-125 | the whole new state of the object is that of the value-level function; no post |
| SchedulerObject.Scheduler.PlanNext | linux/so_scheduler.c:68-75 | likewise, with one post, to the new current thread |
| SchedulerObject.Scheduler.SchedulerCheck | linux/so_scheduler.c:78-118 | the object computes the decision of `Effects.CheckExactly`, with one post, to the new current thread, and a post of `end` exactly when the decision is to stop |
| SchedulerObject.Scheduler.WakeFrom | linux/so_scheduler.c:215-216 | one round of the loop of a signal; it reports whether there was a thread to wake |
| SchedulerObject.Scheduler.SemWait | linux/so_scheduler.c:231-232 | a `sem_wait` that need not block takes one post of the thread's semaphore and changes nothing else |
| SchedulerObject.Scheduler.SoExec | linux/so_scheduler.c:222-229 | makes the decision of the machine's `so_exec` call, and will block on the caller's own semaphore |
| SchedulerObject.Scheduler.SoWait | linux/so_scheduler.c:193-204 | -1 and no change for a device that does not exist; otherwise 0, the caller enrolled before the decision |
| SchedulerObject.Scheduler.SoSignal | linux/so_scheduler.c:206-220 | -1 and no change for a device that does not exist; otherwise the number of threads that waited, all made ready before the decision |
| SchedulerObject.Scheduler.CreateRecord | linux/so_scheduler.c:173-182 | the new record is apart from all others, its semaphore unposted, and the thread is counted |
| SchedulerObject.Scheduler.SoFork | linux/so_scheduler.c:166-191 | no thread and no change exactly for a missing handler or a bad priority; otherwise the new thread has the handler, and the decision is that of the machine's fork for a thread, and that of its first state for the main thread |
| SchedulerObject.Scheduler.FinishThread | linux/so_scheduler.c:156-161 | the thread is labelled terminated before the decision |
| SchedulerObject.Scheduler.SoEnd | linux/so_scheduler.c:235-250 | takes the one post of `end` if any thread was forked, then frees by index the current thread, the ready ones, the finished ones, and those that wait, device by device |

## Left out

- `windows/linkedlist.c` and `windows/prio_queue.c` have the same code as the Linux files; one model covers both. Of `windows/so_scheduler.c` only the maximum count of the semaphores differs.
- Failing system calls and allocations (`DIE`) are taken not to occur. Thread creation, exit, join and semaphores have their usual meaning; thread identifiers of the operating system are abstract.
- NULL arguments other than the handler of `so_fork` are single branches and are not modelled. A second call of `so_fork` by the main thread is outside the rules.
- The quantum is a mathematical integer; its wrap-around after some 2^31 calls of a thread that runs alone is not modelled.
- Handlers that choose their calls by return values or shared data are not modelled: a script is fixed beforehand. Handlers that never return are not modelled either.
- Memory itself: `free` is modelled by the order in which elements are handed to the free function.
- SchedulerObject.Scheduler.SoExec: stops before its `sem_wait`, because a method cannot block; `SemWait` is the wait once it need not, and blocking is modelled in `Interleaving.dfy`.
- SchedulerObject.Scheduler.SoWait: stops before the `sem_wait` of its `so_exec`, likewise.
- SchedulerObject.Scheduler.SoSignal: stops before the `sem_wait` of its `so_exec`, likewise.
- SchedulerObject.Scheduler.SoFork: stops before the `sem_wait` of its `so_exec`, likewise.
- SchedulerObject.Scheduler.SoEnd: starts when its `sem_wait` need not block and leaves out the joins, which `Interleaving.dfy` models; a queue's memory is not usable afterwards, so the object's invariant is not promised.
- A thread pointer is modelled as an identity with a fixed priority, and a table holds the record it points to; reuse of a freed pointer is therefore not captured.
- A stretch of code between two accesses to semaphores is split into several atomic steps, not into single loads and stores. `MutualExclusion.SingleToken` shows that no other actor is inside such a stretch at the same time, with one exception, the test of `no_threads` by the main thread (`linux/so_scheduler.c:241`), which is a step of its own: `MutualExclusion.UnguardedRead` shows that it never finds a zero and that its place among the other steps does not matter. The load and the store of a concurrent `++scheduler->no_threads` are one step; a read between them finds the old count, which is not zero either. The main thread also reads `scheduler` and the new thread's `tid` after its post (lines 190 and 237); nobody writes them then, and the model leaves these reads out.
