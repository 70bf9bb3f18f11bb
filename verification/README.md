# tinyCoro: synchronisation and shutdown, verified

A Dafny model of the parts of tinyCoro that are hard to get right: the coroutine `mutex` and `condition_variable`, the
task wake-up and shutdown protocol of `engine`, `context` and `scheduler`, the `event` and the `latch`, and two small
pieces beside them, the round-robin dispatcher and the case-insensitive string hash.

The concurrent parts appear twice.

* As a **step relation**. Every atomic load, compare-exchange, exchange or fetch is one step of one coroutine or worker,
  program positions are explicit, and a run is any finite sequence of enabled steps of any number of coroutines,
  contexts, mutex waiters and condition variables. The theorems speak of every state or every step of every run.
* As the **objects** of the source: classes whose methods update linked nodes, counters and lists in place, one call at a
  time. Their contracts give the whole new state as a function of the old one, and lemmas about that function say what
  it means.

## How the project is laid out

| Files | Content |
|---|---|
| `MutexModel` | step relation of mutex and condition variables; coroutines own one awaiter node each and reuse it |
| `MutexGhost`, `MutexFrame`, `MutexQuietSteps`, `MutexQueueSteps`, `MutexCvSteps`, `MutexInvariant` | the invariant, kept by every step |
| `MutexPlaces`, `MutexTheorems` | mutual exclusion, one place per node, the asserts of `unlock`, first in first out |
| `FifoLock`, `MutexRefinement` | a plain first-in-first-out lock, and the simulation by it |
| `MutexWaits`, `MutexPredicates`, `MutexNotify` | wait counters, predicates of waits, `notify_all` |
| `MutexCalls`, `MutexProgress` | calls of `lock` and `wait` from begin to return; every call ends |
| `MutexHeap` | `Mutex`, `CondVar` and `Awaiter` as classes: the reversal in place, the recursive `unlock` |
| `EventModel`, `EventInvariant`, `EventTheorems`, `EventProgress` | step relation of event and latch, and what its runs guarantee |
| `EventHeap` | `Event` and `Latch` as classes |
| `SchedulerModel`, `SchedulerCounts`, `SchedulerWindow`, `SchedulerQuiesce`, `SchedulerStop` | step relation of K contexts, invariants |
| `SchedulerRuns` | broadcasts, exits, rounds, and where tasks, IO and eventfd writes go, without assumptions |
| `SchedulerTheorems`, `SchedulerCounterexample`, `SchedulerExactness` | what holds always, what needs an assumption, runs that show why, and that the assumption is exact |
| `SchedulerHeap` | `Engine`, `Context` and `Scheduler` as classes |
| `EventFd`, `LatchCount`, `Dispatcher`, `StringHash` | the packed eventfd word, the latch's signed counter, round robin, the hash |
| `Counting`, `Links`, `Options`, `Powers` | counting, linked lists, optional values, powers of two |

Where the steps come from: in `MutexModel`, `LoadStep`, `TakeStep` and `PushStep` are `register_lock`
(src/comp/mutex.cpp:23-51); `UnlockTopStep`, `UnlockFreeStep`, `UnlockGrabStep`, `ReverseStep` and `HandOverStep` are
`unlock` (src/comp/mutex.cpp:98-127); `ResumeStep`, `WaitStep`, `RegisterStep`, `EnlistStep`, `NotifyOneStep`,
`NotifyAllStep` and `NotifyStep` are the condition variable (src/comp/condition_variable.cpp:43-206). In `EventModel` the
steps are those of src/comp/event.cpp:7-56 and of `count_down` (include/coro/comp/latch.hpp:48-52). In `SchedulerModel`
they are the loop of `run` (src/context.cpp:142-171), the stop callback and `submit_task_impl` (src/scheduler.cpp:31-43,
src/scheduler.cpp:66-76) and the engine's submit and poll (src/engine.cpp:72-130).

Four points of reading:

* **Spurious failure and ABA.** A weak compare-exchange may fail for no reason (`spurious`, `failures`). A node may leave
  a list and be queued again between another coroutine's load and its compare-exchange; the theorems cover such runs.
* **The submit of `SchedulerModel` is three steps** (flag, token, push) and so is the idle path (tests, flag, token). At
  this granularity "stop only when quiescent" is false of the code: an idle worker can clear its flag inside a submit
  aimed at it. `SchedulerCounterexample.PrematureStop` is a run of two contexts that broadcasts stop over a queued task.
  `SchedulerQuiesce.Apart` states the assumption that this does not happen, `SchedulerTheorems.StopExactlyWhenQuiescent`
  proves the property under it, and `SchedulerExactness.ApartIsExact` shows that it is the exact condition for the busy
  marks to be right. It is not the exact condition for stop to be timely: `SchedulerCounterexample.OverlapStops` shows
  that every overlap whose submit is made by the last busy context, in the last task of its round, can end in a
  premature stop, but not every overlap does. A worker that is blocked pushing to its own full queue, for instance,
  never goes idle, so no stop follows.
* **Round robin is fair for ever only if the number of contexts divides 2^64**; for other numbers the wrap of the counter
  breaks one window.
* **A latch built with 2^63 or more is released by its first `count_down`**, since the unsigned count goes into a signed
  counter. `EventModel` counts down with that wrap-around, and the latch theorems state what it means for every n.

Where comments and code disagree, the model follows the code. The comment at src/scheduler.cpp:33 says the fetched flag is
always 1; an idle worker that wakes and goes idle again fetches 0. The header of the engine says the low field of the
eventfd is written by io_uring; `notify_stop` writes it too (src/context.cpp:55). The comment at include/coro/utils.hpp:89
says the hash clears the high bits of `h`; the code clears those of `h * 33`. The configuration header promises that a
submit to a full queue runs the task or drops it (config/config.h.in:89-92); the code pushes and waits (src/engine.cpp:76).

## Model

| member | source | states |
|---|---|---|
| MutexInvariant.StepKeeps | src/comp/mutex.cpp:23-127 | no step of lock, unlock or the condition variable, by any coroutine, breaks the invariant that ties links, list heads, places and the lock's owner together |
| MutexInvariant.GhostAt | src/comp/condition_variable.cpp:56-206 | every state of every run satisfies that invariant |
| MutexTheorems.MutualExclusion | src/comp/mutex.cpp:23-127 | in every reachable state at most one coroutine or awaiter owns the lock, at most one unlocking chain runs, never beside a running owner; `m_state` is 1 exactly if nobody owns it |
| MutexTheorems.ExactlyOnePlace | src/comp/condition_variable.cpp:84-206 | a waiting node is in exactly one of: a cv list, a notifier's detached list, the stack, the resume list, a hand, the task queue; a coroutine that runs is in none; it is queued to run at most once |
| MutexTheorems.QueuedMeansSuspended | src/engine.cpp:81-84 | a handle in a task queue is that of a suspended coroutine, never of one still inside its own `await_suspend`, so whatever `exec_one_task` pops may be resumed |
| MutexTheorems.ListsEnd | src/comp/mutex.cpp:111-121 | every list, followed along `m_next`, ends and visits no node twice |
| MutexTheorems.AssertsHold | src/comp/mutex.cpp:100-124 | the three asserts of `unlock` hold whenever they are reached |
| MutexTheorems.NeverStuck | src/comp/mutex.cpp:98-127 | no call in progress meets a null or dangling node: it can always take its next step |
| MutexTheorems.UserMayCall | src/comp/condition_variable.cpp:169-206 | user code may begin `lock` and `try_lock` exactly without the lock, `unlock` and `wait` exactly with it, and either `notify` at any time |
| MutexRefinement.RunRefines | src/comp/mutex.cpp:23-127 | the lock operations of any run are a legal history of a plain first-in-first-out lock whose queue is what both lists hold |
| MutexRefinement.ServedThenWaiting | src/comp/mutex.cpp:88-97 | who has been offered the lock, followed by who still waits, is who queued, in the order of the successful compare-exchanges |
| MutexTheorems.OffersFollowPushes | src/comp/mutex.cpp:98-127 | offers go out in that order |
| MutexTheorems.NoBarging | src/comp/mutex.cpp:27-34 | a newcomer or `try_lock` gets the free lock only when everybody who ever queued has been offered it |
| MutexTheorems.TwoListsAreTheQueue | src/comp/mutex.cpp:102-125 | outside a refill, resume list followed by the reversed stack, read off the links, is the queue still to be served |
| FifoLock.FirstInFirstOut | src/comp/mutex.cpp:88-97 | in the plain lock nobody overtakes |
| MutexPredicates.EvaluatedByOwner | src/comp/condition_variable.cpp:56-133 | a predicate is evaluated only while its awaiter is the one owner of the lock |
| MutexPredicates.LastEvaluation | src/comp/condition_variable.cpp:117-133 | a waiter with a predicate that has been let through was let through by a true evaluation, not evaluated since |
| MutexPredicates.WaitReturnsHolding | src/comp/condition_variable.cpp:51-133 | when the await_resume of a node with a predicate runs, its last evaluation was true and the coroutine has owned the lock in every state since then |
| MutexCalls.WaitReturnsOnTrue | src/comp/condition_variable.cpp:144-152 | from the step that begins `cv.wait(mtx, pred)` to its return: some step of this very call saw the predicate true, it was not evaluated since, the coroutine owned the lock in every state since, and holds it on return |
| MutexCalls.WaitKeepsItsTerms | src/comp/condition_variable.cpp:139-152 | until it returns a wait keeps its condition variable, its predicate and its context |
| MutexCalls.LockKeepsItsTerms | src/comp/mutex.cpp:82-85 | until it returns a `lock` stays a plain locker on its context |
| MutexCalls.WaitStaysOnItsList | src/comp/condition_variable.cpp:84-101 | meanwhile its node is on no condition variable but its own, and wherever it is parked it is counted on its own context |
| MutexCalls.WaitDecides | src/comp/condition_variable.cpp:56-63 | a wait begun with a true predicate keeps the lock and changes nothing outside its own node; any other goes to sleep |
| MutexCalls.ResumeDecides | src/comp/condition_variable.cpp:117-133 | the virtual `resume` puts back exactly a wait whose predicate is false; every other node is submitted once |
| MutexCalls.SleepsUntilNotified | src/comp/condition_variable.cpp:103-115 | a wait that slept returns only after some `notify_one` or `notify_all` has woken its node: no spurious wake-up |
| MutexProgress.OwnStepsDecrease | src/comp/mutex.cpp:98-127 | every step of a call by its own coroutine, short of a spurious failure, lowers a measure made of resume list, stack, links to reverse and detached list |
| MutexProgress.CallsEnd | src/comp/mutex.cpp:98-127 | a call that nobody interferes with ends within that measure, recursive resumes included |
| MutexWaits.WaitCountersExact | src/context.cpp:67-78 | in every reachable state each context's wait count is the number of its coroutines that have registered and not run `await_resume`; a cv waiter counts once however often it sleeps again |
| MutexWaits.ZeroMeansNobodyParked | src/context.cpp:97-101 | a zero count means no stack, resume list, cv list, detached list or task queue holds a node of that context |
| MutexNotify.NotifyAllWakesItsList | src/comp/condition_variable.cpp:189-206 | whatever happens during its loop, `notify_all` wakes the nodes of the list it swapped out, in order, each once, and nobody else |
| MutexHeap.Mutex.constructor | include/coro/comp/mutex.hpp:83 | a new mutex is free with nobody in line |
| MutexHeap.Mutex.TryLock | src/comp/mutex.cpp:60-68 | takes the lock if and only if it is free; otherwise nothing changes |
| MutexHeap.Mutex.RegisterLock | src/comp/mutex.cpp:23-51 | takes a free lock, or queues the node at the end of the line of a held one, after any number of spurious failures |
| MutexHeap.Mutex.Turn | src/comp/mutex.cpp:117-120 | one turn of the reversal moves one node from the grabbed part to the reversed part and keeps both linked |
| MutexHeap.Mutex.TakeStack | src/comp/mutex.cpp:111-121 | exchange and in-place reversal turn the stack into the resume list, oldest first, with the line as seen from outside unchanged |
| MutexHeap.Mutex.Release | src/comp/mutex.cpp:105-109 | the compare-exchange to free succeeds only with an empty line, which it leaves free |
| MutexHeap.Mutex.Pop | src/comp/mutex.cpp:124-125 | the head of the resume list leaves the line and nothing else changes |
| MutexHeap.Mutex.Unlock | src/comp/mutex.cpp:98-127 | terminates, and ends in `Settled` of the state before: the first in line that may keep the lock has it and is submitted, those before it are back on their condition variables in order, the rest is in line, free if nobody may |
| MutexHeap.Mutex.Submit | src/comp/mutex.cpp:53-58 | the handle is submitted once and the lists stay as they are |
| MutexHeap.Mutex.Resume | src/comp/condition_variable.cpp:117-133 | the same for a node that has just been given the lock, as if it were still first in line |
| MutexHeap.Mutex.Append | src/comp/condition_variable.cpp:88-99 | the critical section appends the node to its own condition variable's list |
| MutexHeap.Mutex.Enlist | src/comp/condition_variable.cpp:84-101 | `register_cv` appends the node and keeps every other list |
| MutexHeap.Mutex.Sleep | src/comp/condition_variable.cpp:72-77 | the wait is counted on the context once, whether the node has slept before or not |
| MutexHeap.Mutex.WaitOn | src/comp/condition_variable.cpp:56-83 | does nothing if the predicate holds, otherwise enlists the node and settles the lock |
| MutexHeap.Mutex.WakeUp | src/comp/condition_variable.cpp:103-115 | joins the line of a held mutex, or settles a free one with this node first in line |
| MutexHeap.Mutex.Unlink | src/comp/condition_variable.cpp:171-181 | exactly the head leaves the list |
| MutexHeap.Mutex.NotifyOne | src/comp/condition_variable.cpp:169-188 | wakes exactly the oldest waiter; nothing happens on an empty list |
| MutexHeap.Mutex.Detach | src/comp/condition_variable.cpp:193-197 | the whole list changes hands with its links intact |
| MutexHeap.Mutex.WakeNext | src/comp/condition_variable.cpp:202-204 | the link is read before the wake-up, which may rewrite it |
| MutexHeap.Mutex.WakeList | src/comp/condition_variable.cpp:199-205 | the loop wakes the nodes of the detached list one after the other, though wake-ups put nodes back on the same condition variable |
| MutexHeap.Mutex.NotifyAll | src/comp/condition_variable.cpp:189-206 | ends as if every waiter present at the swap had been woken in order, and those that went back to sleep stay |
| MutexHeap.SettledKeepsTheLine | src/comp/condition_variable.cpp:117-133 | nobody is lost, duplicated or overtaken by an unlock; exactly cv waiters whose predicate is false are put back, the new owner is none of them, and the mutex ends free if and only if everybody in line is one |
| MutexHeap.SettleOne | src/comp/condition_variable.cpp:117-133 | settling is one resume at a time |
| MutexHeap.WakingIsQueueing | src/comp/condition_variable.cpp:199-205 | waking a list one by one ends as if the list had been in line all along |
| EventInvariant.StepKeeps | src/comp/event.cpp:23-56 | no step of a wait or a set breaks the event's invariant |
| EventTheorems.EveryWaiterSubmittedOnce | src/comp/event.cpp:23-56 | nobody is submitted before the first set; then exactly the waiters pushed before it, each once, newest first, and all of them once no set is in progress |
| EventTheorems.OnlyTheFirstSetterSubmits | src/comp/event.cpp:23-29 | later sets resume nobody |
| EventTheorems.NoLostWakeUp | src/comp/event.cpp:40-56 | once set and no set in progress, every suspended coroutine is in a task queue, once, and nobody else is |
| EventTheorems.WalkTouchesOnlySuspended | src/comp/event.cpp:30-39 | the walk reads only nodes whose coroutine is suspended and not yet submitted |
| EventTheorems.ResumedOnlyWhenSet | src/comp/event.cpp:7-19 | whoever goes on, suspended or not, does so on a set event |
| EventTheorems.ValueBeforeResume | include/coro/comp/event.hpp:134-138 | whoever goes on finds the value stored |
| EventTheorems.ValueIsTheLastSet | include/coro/comp/event.hpp:134-138 | the value in place is the argument of the set begun last |
| EventTheorems.SetSets | src/comp/event.cpp:23-29 | a set that has returned leaves the event set for ever |
| EventProgress.OwnStepsDecrease | src/comp/event.cpp:7-56 | every step of a wait or a set by its own coroutine, short of a spurious failure, lowers a measure that counts the waiters still to be submitted |
| EventProgress.CallsEnd | src/comp/event.cpp:23-56 | a wait or a set that nobody interferes with ends within that measure |
| EventProgress.NeverStuck | src/comp/event.cpp:30-56 | a wait or a set in progress can always take its next step, a submitted coroutine can be dispatched, and user code may begin any call |
| EventTheorems.WaitCountersExact | src/comp/event.cpp:7-22 | each context's count is the number of its coroutines between `await_ready` and `await_resume` |
| EventTheorems.LatchSetExactly | include/coro/comp/latch.hpp:42-58 | under any interleaving, for every 64-bit n: the event is set only after n count-downs, or after one if n is 2^63 or more; after those it is set, or a call is about to set it |
| EventTheorems.LatchSetInTime | include/coro/comp/latch.hpp:48-52 | for n below 2^63, and fewer coroutines than that, it is set as soon as n calls have returned, even while others are in progress |
| EventTheorems.LatchReleasesAll | include/coro/comp/latch.hpp:42-58 | those count-downs made and no call in progress: set, and every waiter that queued has been submitted exactly once |
| EventHeap.Event.constructor | include/coro/comp/event.hpp:57 | set or unset as asked, nobody waiting |
| EventHeap.Event.AwaitReady | src/comp/event.cpp:7-11 | counts the waiter, then looks |
| EventHeap.Event.RegisterAwaiters | src/comp/event.cpp:40-56 | queues the waiter if and only if the event is not set, after any number of spurious failures |
| EventHeap.Event.ResumeAll | src/comp/event.cpp:30-39 | submits the whole stack newest first although each submitted node may be overwritten at once |
| EventHeap.Event.SetState | src/comp/event.cpp:23-29 | the first set submits everybody, later ones change nothing |
| EventHeap.Event.SetValue | include/coro/comp/event.hpp:134-138 | the same, with the value in place |
| EventHeap.SetTwice | src/comp/event.cpp:23-29 | setting is idempotent and submits exactly the waiters |
| EventHeap.Latch.constructor | include/coro/comp/latch.hpp:42 | the unsigned count in a signed counter; set at once for zero |
| EventHeap.Latch.CountDown | include/coro/comp/latch.hpp:48-52 | sets the event exactly when the count-downs so far release the latch |
| LatchCount.ReleasedAfter | include/coro/comp/latch.hpp:42-52 | released after k calls if and only if k reaches n, or n is at least 2^63 and k at least 1 |
| LatchCount.LatchIsExact | include/coro/comp/latch.hpp:42-58 | a latch takes exactly n calls if and only if n is below 2^63 |
| SchedulerTheorems.TokenAccounting | src/scheduler.cpp:23-41 | in every reachable state the token is the number of busy flags less the pending adds plus the pending subtractions |
| SchedulerTheorems.WaitsNeverUnderflow | src/context.cpp:67-78 | the scheduler's side of the two exact-counter results above: with tasks that unregister only what they registered, the count is never below zero, and zero means nobody parked or on the way back |
| SchedulerTheorems.NoLostWakeUp | src/engine.cpp:72-78 | a worker at the eventfd read has at most as many queued tasks as units in the eventfd and submitters about to write it |
| SchedulerTheorems.PopNeverSpins | src/context.cpp:80-88 | the tasks counted by `process_work` are still there when popped |
| SchedulerTheorems.NoLostStop | src/context.cpp:51-56 | a worker asked to stop never blocks on an empty eventfd unless its notifier is about to write, or it has waits or IO |
| SchedulerTheorems.NoLostCompletion | src/engine.cpp:110-130 | while the completion field holds, posted completions nobody has peeked at have a signal in the eventfd or on its way |
| SchedulerRuns.FieldsNeverCarry | include/coro/engine.hpp:200-215 | before stop at most 2*16384 task writes plus the submitters that were in flight at the last read fall between two reads; then no field carries and each wake test reports exactly its own writes |
| SchedulerRuns.FdHoldsTheWrites | src/engine.cpp:66-78 | the eventfd holds exactly the task writes, completions and stop wakes since the last read |
| SchedulerRuns.PeeksExactlyIfWoken | src/engine.cpp:114-117 | a read goes on to the completions exactly if a completion or a stop wake was written since the last one |
| SchedulerRuns.BroadcastReachesAll | src/scheduler.cpp:60-63 | a broadcast that ends has asked every context to stop |
| SchedulerRuns.AskedForEver | src/context.cpp:54 | a stop request is never withdrawn |
| SchedulerRuns.TestsDecide | src/context.cpp:148-167 | undisturbed, the two ifs of `run` lead out of the loop, round again, to the stop callback or to the poll exactly as stop, waits, IO and queue say |
| SchedulerRuns.ExitMeansDone | src/context.cpp:148-157 | a worker that has left its loop was asked to, and has no wait and no IO in any stage |
| SchedulerRuns.ExitFindsNothingQueued | src/context.cpp:151-156 | at the step that leaves the loop nothing is queued |
| SchedulerRuns.RoundsEnd | src/context.cpp:142-171 | every step of a worker's own brings it nearer to its next queue snapshot, eventfd read or exit, broadcasts included |
| SchedulerRuns.WorkersMove | src/context.cpp:142-171 | a worker is held up only by its task, a push to a full queue, an empty eventfd, or a broadcast to a worker that has not started |
| SchedulerRuns.TasksMayAct | src/scheduler.cpp:66-76 | a running task may submit anywhere, resume any parked coroutine, start IO, register, park or end, and a submit goes on from access to access |
| SchedulerRuns.SubmitsAreConserved | src/scheduler.cpp:66-76 | every submit begun towards a context, of whatever kind, has been pushed to it or is still in progress |
| SchedulerRuns.TasksAreConserved | src/context.cpp:80-88 | every handle pushed to a context is queued there or has been resumed by its worker, once |
| SchedulerRuns.IoIsConserved | src/engine.cpp:100-130 | every IO started is prepared, in the kernel, completed, in hand, or its coroutine has been queued, once |
| SchedulerTheorems.StopExactlyWhenQuiescent | src/scheduler.cpp:31-41 | with idle paths apart from submits: a broadcast begins exactly if no flag and no subtraction is left, and then no context has a task, a wait or IO, and every worker has started |
| SchedulerTheorems.QuiescentForEver | src/scheduler.cpp:55-64 | from then on no task ever runs again |
| SchedulerTheorems.SubmitFindsToken | src/scheduler.cpp:69 | with idle paths apart from submits: the assertion at the head of `submit_task_impl` holds at every submit |
| SchedulerTheorems.NotifiedHasStarted | src/context.cpp:51-56 | with idle paths apart from submits: a broadcast finds every worker started |
| SchedulerStop.ZeroMeansIdle | src/scheduler.cpp:37-40 | a zero token means no context is marked busy and no update is pending |
| SchedulerQuiesce.PushHitsBusy | src/scheduler.cpp:73-75 | a push never reaches a context at rest or about to clear its flag |
| SchedulerQuiesce.StepQuiet | src/context.cpp:142-171 | every step keeps the invariant behind the two rows above; flips in flight are ordered by when they happened |
| SchedulerCounterexample.PrematureStop | src/scheduler.cpp:31-41 | without the assumption: a reachable state in which stop is being broadcast over a queued task |
| SchedulerCounterexample.OverlapLosesTheMark | src/scheduler.cpp:73-75 | every idle path that overlaps a submit aimed at it leads to a context with work and no busy mark |
| SchedulerCounterexample.OverlapStops | src/scheduler.cpp:31-41 | from every overlap whose submit is made by the last busy context, in the last task of its round, any number of contexts at rest beside it, stop can be broadcast over the submitted task |
| SchedulerCounterexample.StrandedTaskSubmits | src/scheduler.cpp:69 | a reachable state in which the task left behind may submit with the token at zero, where the assertion fails |
| SchedulerExactness.ApartIsExact | src/scheduler.cpp:66-76 | idle paths and submits are apart if and only if every submit in progress can be carried to its push, across a worker clearing its flag, with all busy marks right |
| EventFd.CqeField | include/coro/engine.hpp:41-43 | task writes never reach the completion field |
| EventFd.WritesAreSeen | include/coro/engine.hpp:200-215 | with 20 bits of task writes from bit 44, 20 of io writes from bit 24 and 24 below, each wake test reports exactly its own writes |
| EventFd.FieldsAreExact | include/coro/engine.hpp:200-215 | within the bounds each wake test reports exactly its own writes |
| SchedulerHeap.Engine.SubmitTask | src/engine.cpp:72-78 | one more task, one more task unit |
| SchedulerHeap.Engine.WakeUp | src/engine.cpp:66-68 | the eventfd grows by the value, in its field |
| SchedulerHeap.Engine.Schedule | src/engine.cpp:56-62 | some queued handle leaves the queue |
| SchedulerHeap.Engine.EmptyIo | src/engine.cpp:141-145 | the counters tell exactly whether any IO is prepared, running or completed |
| SchedulerHeap.Engine.AddIoSubmit | src/engine.cpp:133-137 | one more prepared request |
| SchedulerHeap.Engine.DoIoSubmit | src/engine.cpp:100-107 | all prepared requests go to the kernel |
| SchedulerHeap.Engine.PollSubmit | src/engine.cpp:110-130 | every completion's coroutine is queued and none is left behind, unless the low field carried to zero |
| SchedulerHeap.Context.NotifyStop | src/context.cpp:51-56 | stop requested and the eventfd written |
| SchedulerHeap.Context.EmptyWaitWork | src/context.cpp:97-101 | no wait and no IO in any stage |
| SchedulerHeap.Context.ExecOneTask | src/engine.cpp:81-89 | one queued task runs; what it spawns is queued |
| SchedulerHeap.Context.ProcessWork | src/context.cpp:80-88 | runs as many tasks as were queued at its start, never pops an empty queue, and what ran and what is queued is what was queued and what was spawned |
| SchedulerHeap.Context.Round | src/context.cpp:145-167 | the tasks queued at its start, in number, have run with all their effects and no other; then out of the loop exactly if asked to stop and idle, to the stop callback exactly if not asked and idle; tasks without effects leave an empty queue |
| SchedulerHeap.Scheduler.constructor | src/scheduler.cpp:5-25 | every context new and idle, every flag up, the token their number |
| SchedulerHeap.Scheduler.SubmitTask | src/scheduler.cpp:66-76 | the task reaches the dispatched context, which is marked busy, and the token stays the number of busy flags |
| SchedulerHeap.Scheduler.StopCallback | src/scheduler.cpp:31-41 | stop is broadcast exactly if no flag is left, and then every context is idle; otherwise no context is touched |
| SchedulerHeap.Scheduler.Stop | src/scheduler.cpp:55-64 | every context has its stop requested and its eventfd written once |
| SchedulerHeap.Scheduler.Work | src/context.cpp:142-168 | the same for any worker, every other context keeping queue, waits and IO; its flag goes down exactly if it ends idle and not asked, and stop is requested exactly if that was the last flag, when every context is idle |
| Dispatcher.RoundRobin.Dispatch | include/coro/dispatcher.hpp:70 | the context is the old counter's remainder, the counter moves by one modulo 2^64 |
| Dispatcher.RoundRobinIsFair | include/coro/dispatcher.hpp:60-75 | any window of k dispatches that does not reach the wrap gives each of n contexts floor(k/n) or ceil(k/n) |
| Dispatcher.FairForEver | include/coro/dispatcher.hpp:60-75 | all windows, wrap included, are fair if and only if n divides 2^64 |
| Dispatcher.PowersOfTwoAreFair | include/coro/dispatcher.hpp:60-75 | the counter has 64 bits, so dispatch to any power of two of contexts up to 2^64 is fair for ever |
| StringHash.ToLowerIs | include/coro/utils.hpp:55-72 | whatever the sign of the char, `to_lower` gives the code of a character, or that code plus 32 for a Latin-1 capital |
| StringHash.EqualExactly | include/coro/utils.hpp:101-105 | `equal` accepts exactly the texts of one length that have the same letter at every position, in either case |
| StringHash.EqualIsAnEquivalence | include/coro/utils.hpp:101-105 | `equal` is reflexive, symmetric and transitive |
| StringHash.EqualKeysHashAlike | include/coro/utils.hpp:79-94 | keys that are `equal` have the same hash |
| StringHash.MixIs | include/coro/utils.hpp:86-92 | one round multiplies by 33 modulo 2^58 and adds the letter by exclusive or |
| StringHash.OneLetterChangesTheHash | include/coro/utils.hpp:79-94 | keys of one length that read differently in exactly one place never collide |
| StringHash.ShortKeys | include/coro/utils.hpp:79-94 | the hash of one- and two-letter keys |
| StringHash.HashOfAb | include/coro/utils.hpp:79-94 | "ab", in small letters or capitals, hashes to 3299 |
| StringHash.NoOverflow | include/coro/utils.hpp:83-93 | for keys of any length no product overflows 64 bits and the hash is below 2^58 |

## Left out

- SchedulerTheorems.StopExactlyWhenQuiescent: assumes that no context clears its flag inside a submit aimed at it, since the code does not prevent it; `PrematureStop` and `ApartIsExact` say what happens otherwise.
- SchedulerTheorems.QuiescentForEver: rests on the same assumption.
- SchedulerTheorems.SubmitFindsToken: rests on the same assumption; `StrandedTaskSubmits` shows it is needed.
- SchedulerTheorems.NotifiedHasStarted: rests on the same assumption; in other runs the model lets a broadcast wait for a worker that has not started, where the code may find no thread handle. A worker counts as started with its handle in place (src/context.cpp:37 assigns it while the thread may already run).
- SchedulerQuiesce.PushHitsBusy: rests on the same assumption.
- SchedulerQuiesce.StepQuiet: rests on the same assumption.
- SchedulerExactness.ApartIsExact: is about the busy marks; which overlaps lead to a premature stop depends on what else runs, as said above.
- SchedulerTheorems.WaitsNeverUnderflow: a task holds one wait at a time and unregisters only what it registered; that waiters do so is proved in `MutexWaits` and `EventTheorems`.
- EventTheorems.LatchSetInTime: for n of 2^63 or more, a call may return while the first one is still about to set the event.
- SchedulerRuns.FieldsNeverCarry: for fewer than 2^20 - 2^15 contexts and fewer than 2^24 low-field writes; `EventFd.FieldsCarry` shows both fields need a bound.
- SchedulerTheorems.NoLostCompletion: holds while fewer than 2^24 low-field units gather between two reads; `EventFd.FieldsCarry` shows the bound is needed.
- EventTheorems.ValueBeforeResume: is about an event that starts unset and is set with a value; an event built set has none.
- MutexHeap.Mutex.Unlock: one thread without interference, so a predicate keeps its value during the call; `MutexModel` lets every evaluation return anything.
- SchedulerHeap.Engine.SubmitTask: the queue has no capacity here; the push that waits on a full queue is in `SchedulerModel`.
- SchedulerHeap.Context.ExecOneTask: a task acts on its own context only, and a finished coroutine is not cleaned up.
- SchedulerHeap.Context.ProcessWork: the same, and nobody else pushes meanwhile.
- SchedulerHeap.Context.Round: the tests of `run` see one state; `SchedulerModel` evaluates them one access at a time.
- SchedulerHeap.Scheduler.Work: one call at a time and tasks that act on their own context only; submits and resumptions across contexts, and their interleaving, are in `SchedulerModel`.
- MutexProgress.CallsEnd: interference can prolong a call, by queueing more waiters or by failing a compare-exchange for ever; no fairness is assumed and no liveness beyond this claimed.
- Weak memory: every access is taken as sequentially consistent; the event's compare-exchange is acquire only in the code.
- Spinlock sections of the condition variable are single steps; the spinlock itself is not modelled.
- The task queue of the engine is a third-party concurrent queue: a bounded count in `SchedulerModel`, a multiset in `SchedulerHeap`; a push to a full queue waits.
- io_uring completes submitted requests in any order at any time; submission errors and the size of the completion array are not modelled.
- Submits from other threads after `loop` has been called, and a stand-alone context's own stop callback, which requests stop without waking.
- Coroutine frames and their destruction by `exec_one_task`: handles are opaque.
- `wait_group`, `channel`, `when_all`, `parallel`, TCP, timers and stdin awaiters, logging and the memory allocator.
- `lock_guard` differs from `lock` only in the object it returns, and destructor asserts are obligations of the caller.
- The number of contexts and coroutines is fixed for a run, and a coroutine waits on one thing at a time.
