# Verified models of concurrencpp's protocols

concurrencpp is a C++20 library of tasks, executors, timers and coroutine primitives. Its correctness rests on
small protocols over atomics, mutexes and intrusive lists that must hold in every interleaving. This project models
those protocols in Dafny 4.11 and proves what they promise. `dafny verify dfyconfig.toml` checks the whole project.

## How the models are built

A protocol that several threads run is a state machine: a `State`, the `Action`s that can happen, and a total function
`Next`. An action is one atomic load, compare-exchange or exchange, one unsynchronised write that the protocol has to
make safe, or one region guarded by a mutex. An action that is not enabled changes nothing, so `Run(Initial(..), actions)`
for an arbitrary sequence of actions is an arbitrary interleaving, of any length, with any number of participants. An
inductive invariant gives the theorems at the end of each module, which quantify over all runs. Safety alone would also
hold of a machine that does nothing; each module therefore proves as well what each operation does to its caller, and that
from every reachable state some continuation gets everybody through.

Code that one thread runs on its own data keeps its imperative form: linked lists with nodes on the heap, an array of
flags, and objects whose methods change their fields in loops. Each such method is proved against a specification
function or an outright property of the old and the new state.

| file | what it models |
|---|---|
| `Collections.dfy` | definitions that several modules share |
| `ResultState.dfy`, `PcState.dfy` | `result_state`: one producer and one consumer on the five-valued `m_pc_state` |
| `WhenAny.dfy` | `when_any`: one coroutine registering with n results while their producers complete, round after round |
| `SharedResult.dfy` | `shared_result_state`: the lock-free stack of awaiters, its reversal in place and the resumptions |
| `SList.dfy` | the intrusive list, and `notify_one` and `notify_all` over it |
| `AsyncLock.dfy` | `async_lock` in every interleaving, and one `unlock` run to completion |
| `ConditionVariable.dfy` | `async_condition_variable` in every interleaving |
| `IdleWorkers.dfy` | `idle_worker_set`: its search used by one thread, its ledger under any interleaving |
| `DonorList.dfy` | the list of idle workers that a pool worker keeps between donations |
| `ThreadPool.dfy` | routing, donation and bulk enqueue of the pool; task conservation over whole pool runs |
| `PoolWorker.dfy` | how one pool worker sleeps, is woken, times out and is shut down |
| `WorkerThread.dfy`, `ThreadExecutor.dfy` | the two other threaded executors |
| `TimerPass.dfy`, `TimerQueue.dfy` | one pass of `process_timers`: what it has to do, and the multiset with iterator map that does it |
| `TimerWorker.dfy` | the timer queue's requests and its worker thread, which retires and is created again |

## Properties that turn out to be conditional

- A result state may be deleted while the producer still has to use it. `complete_producer` exchanges `m_pc_state` first;
  afterwards it reads `m_consumer` (result_state.h:189) or calls `notify_one` on `m_pc_state` (line 197), and the consumer
  may leave in between. `TouchedAfterDeletionIff` proves that these are the only two places, and that a deleted state is
  met there exactly when the consumer has left before. `ConsumerContextRead` proves that the read is safe for `await` and
  for every consumer that is still registered, and that a consumer that left had lost a `wait_for`, `when_any` or `share`
  registration. For callers: without timed-out waits, taken-back registrations and dropped shared results the read is
  always safe (`ReadIsSafeWithoutTakingBack`), and without `wait` no deleted state is used at all
  (`NeverTouchedAfterDeletion`). Four runs show that each failing kind occurs.
- `when_any` may sleep for ever. `result_state_base::when_any` returns the value that it loaded before its
  compare-exchange, so an input whose producer finishes in between is neither registered nor reported. `LostWakeUp`
  gives such a run for every number of inputs; `SleepsForeverIffAllLost` proves that a coroutine stays asleep, after all
  producers are through, exactly when every registration was lost; `CompletedInputWakes` proves that any other input
  wakes it, under every interleaving. The documentation (README.md:1253) promises readiness without this condition.
- A pool worker whose idle deadline has passed retires without looking at its queue again. `TimeOutStrandsTasks` gives a
  run that leaves tasks without a thread; `StrandedOnlyByTimeOut` proves that no other step does, and
  `NextEnqueueRescues` that the next enqueue to that worker repairs it.
- A periodic timer may fire several times in one pass. `VisitedOnceIffPeriodOrTick` proves that a pass visits every timer
  at most once exactly when no visited periodic timer has a period of zero while the clock still reads the time at which
  the pass began; `PeriodsGiveOneFiring` is the consequence for periods of at least a millisecond.
  `ZeroPeriodFiresTwice` and `FrozenClockSpins` are the runs that show the failure.
- The assertion that a pool worker's private queue is empty when it swaps its queues (thread_pool_executor.cpp:359) holds
  until the shutdown of some worker has begun (`PrivateIsEmptyAtSwapWhileOpen`). After that it may fail:
  `FailedDonationLeavesTasks` and `StoppedWorkerLeavesTasks` are runs that do so, and `LeftoverStep` names the exact steps.
  No task is lost by it.
- A donation that meets a worker that is shut down leaves the donor's list of idle workers uncleared. From then on every
  donation of that worker throws (`ThrowsForEver`), and the assertion that there are no more idle workers than tasks
  (thread_pool_executor.cpp:215) holds exactly while all that was found since fits (`AssertionHoldsIff`);
  `StaleListBreaksAssertion` is a run in which it fails.
- Awaiting a condition variable may ask for its mutex twice on one thread. `await_suspend` unlocks the async lock under
  that mutex; a lock waiter whose resume executor is shut down fails inside the unlock, and the code behind it goes on
  there. `ConditionVariableRelease.Awaiting.AwaitSuspend` proves that this happens exactly when such a waiter, ahead of the
  first living one, uses the condition variable.
- `thread_executor::shutdown` waits for all threads on its first call only; `LaterShutdownDoesNotWait` shows a later call
  that returns while a thread executes its task.

## Assumptions

- Atomic operations are sequentially consistent steps. `compare_exchange_weak` may fail spuriously.
- After a deletion the runs go on as if the memory were still there: reading the consumer context yields what the state
  held last, and `notify_one` wakes the waiter. ISO C++20 grants neither. An implementation in which `notify_one` uses only
  the address of the atomic makes the second case harmless, not the first.
- A `binary_semaphore` that already holds its permit still holds one permit after a release. ISO C++20, section
  [thread.sema.cnt], makes that a precondition; the code does not guard it.
- Resume executors that are alive queue work; they do not run it inside `post`. In `ConditionVariable` the code behind a
  lock waiter with a dead executor does not use the condition variable inside another awaiter's unlock; what happens
  otherwise is in `ConditionVariableRelease`.
- A pool stands alone: routing between several pools is not modelled.
- A promise that is dropped together with its own result may complete without a value.
- The clock that a timer reads does not run back during a pass.

## Model

| member | source | states |
|---|---|---|
| `ResultState.RunKeepsInv` | source/results/impl/result_state.cpp:10-120 | Every step of producer and consumer, in any order, keeps the invariant tying `m_pc_state`, the consumer context, the pending wake-up, the calls of `on_result_finished` and the deletions to where both sides are |
| `ResultState.DeletedOnceByTheLastSide` | include/concurrencpp/results/impl/result_state.h:181-231 | The state is deleted at most once, and exactly once when both sides are through: by the consumer if the producer has exchanged before it leaves, else by the producer |
| `ResultState.TouchedAfterDeletionIff` | include/concurrencpp/results/impl/result_state.h:184-202 | A deleted state is still to be used by the producer if and only if the consumer is gone and the producer, having exchanged `consumer_set` or `consumer_waiting`, has not yet read the consumer context or called `notify_one` |
| `ResultState.ReadIsSafeWithoutTakingBack` | include/concurrencpp/results/impl/result_state.h:187-190 | In runs without timed-out `wait_for`, taken-back registrations and dropped shared results the consumer context of a deleted state is never read |
| `ResultState.NeverTouchedAfterDeletion` | include/concurrencpp/results/impl/result_state.h:181-210 | If moreover nobody calls `wait`, no deleted state is ever used |
| `ResultState.WaitingConsumerLeavesBeforeNotify` | source/results/impl/result_state.cpp:27-35 | A run in which a `wait` returns and its state is deleted before the producer calls `notify_one` on it |
| `ResultState.ConsumerContextRead` | source/results/impl/consumer_context.cpp:209-241 | At that read the state is deleted exactly when the consumer is gone, never for `await` or a consumer still registered, and only after a lost rollback or rewind |
| `ResultState.ContextIsStableUntilRead` | include/concurrencpp/results/impl/result_state.h:187-190 | Between the exchange and the read no step of the consumer writes the consumer context |
| `ResultState.TimedOutConsumerLeavesBeforeRead` | include/concurrencpp/results/impl/result_state.h:134-143 | A run in which a `wait_for` loses its rollback and the state is deleted before the producer reads it |
| `ResultState.WhenAnyConsumerLeavesBeforeRead` | source/results/impl/result_state.cpp:102-106 | The same for a `when_any` registration |
| `ResultState.SharedConsumerLeavesBeforeRead` | include/concurrencpp/results/impl/shared_result_state.h:73-77 | The same for the last `shared_result` |
| `ResultState.BothSidesCanFinish` | include/concurrencpp/results/impl/result_state.h:181-231 | From every reachable state the producer alone can get through and then the consumer; the state is then deleted exactly once |
| `ResultState.ReturnMeansReady` | source/results/impl/result_state.cpp:10-57 | `wait` and `await` return only when the result is published and may be consumed; a suspended `await` goes on by the producer's step alone |
| `ResultState.OperationOutcome` | source/results/impl/result_state.cpp:10-100 | Begun before the result is published each operation registers if undisturbed; begun after, it leaves the consumer context alone and returns, reports or finishes at once |
| `ResultState.TakeBackOutcome` | source/results/impl/result_state.cpp:102-120 | Before the exchange a timed-out, rewound or dropped registration is taken back and leaves the state idle and empty; after it the consumer goes on at once |
| `ResultState.AbandonedResultIsDeleted` | include/concurrencpp/results/impl/result_state.h:200-202 | A producer whose consumer has left deletes the state, whether it stored an outcome or not |
| `ResultState.WaitSleeps` | source/results/impl/result_state.cpp:27-33 | A `wait` for an unpublished result blocks and stays blocked until the producer exchanges |
| `ResultState.StoredIsTheFirst` | include/concurrencpp/results/impl/result_state.h:71-79 | The first stored value or exception is the one that counts |
| `ResultState.StoredOutcomeIsReported` | include/concurrencpp/results/impl/result_state.h:82-98 | That outcome is the only one ever reported, by `wait_for` and by `status`, once published and not before |
| `ResultState.AwaitResumedExactlyOnce` | source/results/impl/result_state.cpp:38-57 | An `await` that returned true is resumed exactly once, or its resumption is still owed by the producer; one that returned false is never resumed |
| `ResultState.RegistrationFindsEmptySlot` | source/results/impl/consumer_context.cpp:180-207 | Over any sequence of `await`, `wait_for`, `when_any`, rewind and `share`, every registration finds the consumer context empty |
| `ResultState.TimedWaitReportsPublishedOutcome` | include/concurrencpp/results/impl/result_state.h:94-147 | A `wait_for` that reports a result reports the one the producer published, and the state is `producer_done` |
| `ResultState.TimedOutWaitIsInvisible` | include/concurrencpp/results/impl/result_state.h:125-146 | However producer steps are interleaved with it, a `wait_for` that returns idle leaves the state that the producer's steps alone would have left |
| `ResultState.PublishedResultIsReturnedAtOnce` | include/concurrencpp/results/impl/result_state.h:94-98 | If the result is published before `wait_for` begins, it is returned without registering |
| `ResultState.BlockedConsumerIsWoken` | include/concurrencpp/results/impl/result_state.h:187-207 | A consumer blocked in `wait` or `wait_for` on a published result has its wake-up delivered, or the producer's next two steps deliver it |
| `ResultState.SharedStateFinishedOnce` | source/results/impl/result_state.cpp:80-100 | `on_result_finished` is called at most once, and exactly once if the shared state is alive when the producer is through |
| `ResultState.StatusIsIdleUntilPublished` | include/concurrencpp/results/impl/result_state.h:82-91 | Between operations the state is never `consumer_set`, and `status` is idle exactly until the producer publishes |
| `WhenAny.ContinuesOnceWithFinishedInput` | include/concurrencpp/results/when_result.h:112-146 | For any number of inputs and any interleaving, each round continues at most once; the returned index is in range and names an input that is `producer_done` |
| `WhenAny.SuspendedImpliesCovered` | source/results/impl/consumer_context.cpp:79-125 | While the coroutine sleeps it is about to be resumed, or every input is registered, has a producer on its way to this context, or lost its registration |
| `WhenAny.ReadyInputIsReported` | include/concurrencpp/results/when_result.h:116-128 | If some input is done when a round begins, the coroutine never suspends in that round |
| `WhenAny.LostIffSwapFailed` | source/results/impl/result_state.cpp:67-77 | An input counts as lost in a round exactly when the compare-exchange of its registration, in this round, found its producer done |
| `WhenAny.LostAfterLoad` | source/results/impl/result_state.cpp:60-77 | A lost input was not done at this round's load of it: its producer completed in between |
| `WhenAny.CoroutineSettles` | include/concurrencpp/results/when_result.h:112-146 | From every reachable state the coroutine alone sleeps or returns after at most 9 n + 9 steps |
| `WhenAny.CompleteOutcome` | include/concurrencpp/results/impl/result_state.h:181-194 | A completed input stays done, and its producer is on its way to whoever had registered |
| `WhenAny.ReportedResultEndsTheLoop` | include/concurrencpp/results/when_result.h:117-119 | Once a result is reported the registration loop stops at the next input |
| `WhenAny.AgainOutcome` | include/concurrencpp/results/when_result.h:112-113 | `when_any` can be called again whenever it has returned and begins a round of its own |
| `WhenAny.CompletedInputWakes` | source/results/impl/consumer_context.cpp:88-125 | From any reachable sleep and under any continuation: once the producer of an input that did not lose its registration is through, the coroutine has gone on, or a producer is about to resume it |
| `WhenAny.CompletingInputWakes` | source/results/impl/consumer_context.cpp:104-113 | If only that producer moves, it resumes the coroutine itself, once, with its input as the result |
| `WhenAny.LostWakeUp` | source/results/impl/result_state.cpp:59-78 | For every number of inputs there is a run in which all producers finish and the coroutine sleeps |
| `WhenAny.AllLostNeverWakes` | source/results/impl/result_state.cpp:73-77 | If every registration was lost, no continuation of the run ever resumes the coroutine, although all inputs are done |
| `WhenAny.SleepsForeverIffAllLost` | source/results/impl/result_state.cpp:59-78 | Once all producers are through, the coroutine stays asleep if and only if every registration was lost |
| `WhenAny.ReturnLeavesInputsReusable` | source/results/impl/result_state.cpp:102-120 | When `when_any` returns, each input is `producer_done`, or idle with an empty consumer context |
| `WhenAny.LateProducerResumesNothing` | source/results/impl/consumer_context.cpp:98-102 | A producer that still holds the context of an earlier round changes nothing but its own position and never resumes |
| `WhenAny.StatusOnlyDrops` | source/results/impl/consumer_context.cpp:58-66 | The status of every context moves only from processing to done processing to a result, and a result never changes |
| `WhenAny.TryResumeLoopsAtMostTwice` | source/results/impl/consumer_context.cpp:98-124 | `try_resume` goes round its loop at most twice, the second time only after the status dropped |
| `SharedResult.ResumedInPushOrder` | include/concurrencpp/results/impl/shared_result_state.h:100-120 | The resumed coroutines are a prefix of the pushed ones, each once and in push order, and all of them when the finisher is through |
| `SharedResult.SuspendedUntilResumed` | source/results/impl/shared_result_state.cpp:13-26 | A coroutine is suspended exactly while it is pushed and not resumed; one that was refused was never pushed and the result is ready |
| `SharedResult.LateAwaitersAreRefused` | source/results/impl/shared_result_state.cpp:14-24 | After the sentinel is in place no `await` is ever pushed, whatever it had loaded before |
| `SharedResult.NodesAreReadBeforeResumption` | include/concurrencpp/results/impl/shared_result_state.h:115-120 | The finisher reads a node only while its coroutine is suspended, although the frames of running coroutines are overwritten arbitrarily |
| `SharedResult.AwaitOutcome` | source/results/impl/shared_result_state.cpp:13-26 | An undisturbed `await` is refused if the result is ready, and otherwise suspends, pushed last |
| `SharedResult.FailedPush` | source/results/impl/shared_result_state.cpp:14-24 | A push that fails, for a changed head or spuriously, changes nothing and starts over |
| `SharedResult.AwaitSettles` | source/results/impl/shared_result_state.cpp:13-26 | From every reachable state an undisturbed `await` returns after at most five steps |
| `SharedResult.FinisherBegins` | include/concurrencpp/results/impl/shared_result_state.h:89-101 | The finisher stores the status and takes all that was pushed |
| `SharedResult.FinisherMakesProgress` | include/concurrencpp/results/impl/shared_result_state.h:106-120 | Every step of the finisher decreases a measure that no coroutine increases, and the measure is zero exactly at the end |
| `SharedResult.ReversalStep` | include/concurrencpp/results/impl/shared_result_state.h:106-111 | One turn of the reversal moves the boundary between the part linked backwards and the part linked forwards by one node |
| `SharedResult.Reverse` | include/concurrencpp/results/impl/shared_result_state.h:103-113 | On the heap: each node is relinked in place to the node that was above it, and the bottom node becomes the first |
| `SharedResult.OnResultFinished` | include/concurrencpp/results/impl/shared_result_state.h:89-121 | On the heap: coroutine i to be resumed is the i-th from the bottom of the stack, although each resumption may destroy its node |
| `SinglyLinkedList.SList.constructor` | include/concurrencpp/utils/slist.h:24 | A new list is valid and empty |
| `SinglyLinkedList.SList.Move` | include/concurrencpp/utils/slist.h:26-29 | A moved list takes over exactly the nodes of the other list, which ends empty |
| `SinglyLinkedList.SList.Empty` | include/concurrencpp/utils/slist.h:31-34 | The head is null exactly when the list has no nodes |
| `SinglyLinkedList.SList.PushBack` | include/concurrencpp/utils/slist.h:36-46 | The node joins behind all others and head, tail and next pointers agree again |
| `SinglyLinkedList.SList.PopFront` | include/concurrencpp/utils/slist.h:48-61 | The first node, or null from an empty list, is returned and the rest stays in order |
| `Notification.AsyncConditionVariable.NotifyOne` | source/threads/async_condition_variable.cpp:66-74 | At most the first awaiter is resumed; the queue afterwards is exactly the others, changed only by what arrives or is notified during the resumption |
| `Notification.OnlyNotificationsTake` | source/threads/async_condition_variable.cpp:66-89 | Whatever happens meanwhile, k notifications take the first k awaiters and all others stay, in order, ahead of the newcomers |
| `Notification.NewcomersQueueUp` | source/threads/async_condition_variable.cpp:18-25 | Without other notifications nobody leaves and the newcomers queue up behind, in order |
| `Notification.UndisturbedTurn` | source/threads/async_condition_variable.cpp:81-88 | Without other notifications a resumption leaves everybody queued where they joined, the resumed coroutine too if it awaits again |
| `Notification.AllAwaitAgain` | source/threads/async_condition_variable.cpp:76-89 | If every resumed coroutine just awaits again, `notify_all` leaves the queue as it was |
| `Notification.AsyncConditionVariable.ResumeNext` | source/threads/async_condition_variable.cpp:81-88 | Resuming the first node of the local list leaves the rest of that list intact, whatever the resumed coroutine does to its node and to the member list |
| `Notification.AsyncConditionVariable.NotifyAll` | source/threads/async_condition_variable.cpp:76-89 | Exactly the awaiters queued at the start are resumed, once each and in order; the loop ends although each of them may await again; the queue afterwards is exactly who joined meanwhile and was not taken by another notification |
| `AsyncLockProtocol.LockedIffOneOwner` | source/threads/async_lock.cpp:44-77 | `m_locked` is set exactly when one coroutine or guard owns the lock, under barging, re-queueing, `try_lock` and failing executors |
| `AsyncLockProtocol.QueuedExactlyOnce` | source/threads/async_lock.cpp:17-27 | A suspended coroutine is on the list exactly once and no other coroutine is |
| `AsyncLockProtocol.PoppedInQueueOrder` | source/threads/async_lock.cpp:121-143 | Waiters leave the list in the order in which they joined it |
| `AsyncLockProtocol.NoWaiterIsStranded` | source/threads/async_lock.cpp:99-143 | When the lock is free and waiters are queued, a popped waiter is still to retry, and takes the lock if it does so now |
| `AsyncLockProtocol.LockOutcome` | source/threads/async_lock.cpp:44-55 | `try_lock` succeeds exactly when nobody holds the lock; `lock` then succeeds at once, else the coroutine joins the end of the list |
| `AsyncLockProtocol.RetryOutcome` | source/threads/async_lock.cpp:47-59 | A popped waiter takes a free lock and goes to its executor, or joins the end of the list again |
| `AsyncLockProtocol.ResumeOutcome` | source/threads/async_lock.cpp:61-77 | It owns the lock exactly when its executor is alive; otherwise it frees the lock and pops the next waiter |
| `AsyncLockProtocol.UnlockOutcome` | source/threads/async_lock.cpp:121-150 | The owner's `unlock` frees the lock and pops the first waiter; moving a guard moves the ownership |
| `AsyncLockProtocol.OnlyQueuedWaitersUseTheirExecutor` | source/threads/async_lock.cpp:45-61 | Only a coroutine that was queued and popped goes through its executor, or fails |
| `AsyncLockProtocol.LockNeverJams` | source/threads/async_lock.cpp:44-143 | From every reachable state some schedule serves everybody and leaves the lock free |
| `AsyncLockProtocol.QuietLockHasNoWaiters` | source/threads/async_lock.cpp:44-77 | If nobody owns the lock or is on the way to it, nobody waits for it |
| `AsyncLockHandOff.DeadPrefix` | source/threads/async_lock.cpp:61-77 | Names the waiters that cannot be resumed: all of them are dead, and the next one, if any, is alive |
| `AsyncLockHandOff.AsyncLock.Lock` | source/threads/async_lock.cpp:44-55 | A free lock is taken at once, otherwise the waiter joins the end of the list |
| `AsyncLockHandOff.AsyncLock.Retry` | source/threads/async_lock.cpp:47-77 | The nested retries end; the lock passes to the first living waiter, or ends free with an empty list |
| `AsyncLockHandOff.AsyncLock.Unlock` | source/threads/async_lock.cpp:121-143 | Refuses an unlocked lock and changes nothing; otherwise hands over to the first living waiter and every waiter before it fails exactly once |
| `AsyncLockHandOff.HandOffConservesWaiters` | source/threads/async_lock.cpp:61-77 | After a hand-off the failed waiters, the owner and the queue together hold each old waiter exactly once |
| `ConditionVariable.NoMissedNotification` | source/threads/async_condition_variable.cpp:18-25 | Between releasing the lock and being queued an awaiter holds the mutex and no notification can run; the next `notify_all` takes exactly the waiting ones |
| `ConditionVariableRelease.Awaiting.AwaitSuspend` | source/threads/async_condition_variable.cpp:18-25 | The awaiter is queued under the mutex; the thread asks for that mutex again if and only if a failing lock waiter ahead of the first living one uses the condition variable |
| `ConditionVariable.NotifiedInArrivalOrder` | source/threads/async_condition_variable.cpp:66-89 | Awaiters are notified in the order in which they were queued and nobody is lost or repeated |
| `ConditionVariable.NoLostWakeUp` | include/concurrencpp/threads/async_condition_variable.h:38-48 | Once a `notify_all` has run after the condition was last made true, no predicate `await` is left waiting for a condition that holds |
| `ConditionVariable.NotifyAllWakesThemAll` | source/threads/async_condition_variable.cpp:76-89 | In terms of the run: after a `notify_all` not followed by a change to true, no predicate `await` waits for a condition that holds |
| `ConditionVariable.OwnerOutcome` | source/threads/async_condition_variable.cpp:54-59 | A coroutine gets the lock exactly when nobody owns it, gives it back, and its changes of the condition take effect |
| `ConditionVariable.AwaitOutcome` | include/concurrencpp/threads/async_condition_variable.h:39-48 | The predicate overload returns if the condition holds; otherwise, undisturbed, the coroutine is queued last and lock and mutex are free |
| `ConditionVariable.NotifiedOutcome` | source/threads/async_condition_variable.cpp:54-74 | `notify_one` takes exactly the first awaiter; a notified one goes on exactly when its executor is alive |
| `ConditionVariable.NobodyIsStuck` | source/threads/async_condition_variable.cpp:18-89 | From every reachable state some schedule lets every coroutine get through and out |
| `ConditionVariable.ReturnMeansLockedAndTrue` | include/concurrencpp/threads/async_condition_variable.h:39-48 | A predicate `await` that returned normally owns the lock, alone, and the condition holds |
| `IdleFlags.FullSearchFindsAll` | source/executors/thread_pool_executor.cpp:128-142 | The modular probe visits every index once: it finds every idle worker but the caller, without repetition |
| `IdleFlags.FoundAfterFirst` | source/executors/thread_pool_executor.cpp:123-143 | Taking the first worker found leaves the remaining findings in the same order |
| `IdleWorkers.SearchFindsAll` | source/executors/thread_pool_executor.cpp:123-143 | A search fails only if no other worker is idle |
| `IdleWorkers.SearchFollowsRotation` | source/executors/thread_pool_executor.cpp:128-140 | A search takes idle workers in the order in which they follow the caller, or, outside the pool, the worker the hash selects |
| `IdleWorkers.IdleWorkerSet.SetIdle` | source/executors/thread_pool_executor.cpp:90-97 | Sets one flag and keeps the counter equal to the number of idle flags, also when the flag was set already |
| `IdleWorkers.IdleWorkerSet.SetActive` | source/executors/thread_pool_executor.cpp:99-106 | Clears one flag and keeps the counter equal to the number of idle flags, also when the flag was clear already |
| `IdleWorkers.IdleWorkerSet.TryAcquireFlag` | source/executors/thread_pool_executor.cpp:108-121 | Succeeds exactly when the worker was idle, and clears its flag |
| `IdleWorkers.IdleWorkerSet.FindIdleWorker` | source/executors/thread_pool_executor.cpp:123-143 | Acquires the first idle worker in probe order that is not the caller, and no other; fails if there is none |
| `IdleWorkers.IdleWorkerSet.FindIdleWorkers` | source/executors/thread_pool_executor.cpp:145-170 | Acquires exactly min(idle workers other than the caller, maximum) distinct workers, the first ones in probe order, and no other |
| `IdleLedger.CounterMatchesFlags` | source/executors/thread_pool_executor.cpp:90-121 | At every point of every interleaving the counter is the number of idle flags minus pending increments plus pending decrements |
| `IdleLedger.MarkOutcome` | source/executors/thread_pool_executor.cpp:90-106 | Marking sets the flag, and the counter follows exactly when the flag changed |
| `IdleLedger.LoadOutcome` | source/executors/thread_pool_executor.cpp:108-112 | An acquirer goes on to its exchange exactly when it saw the flag set |
| `IdleLedger.AcquireOutcome` | source/executors/thread_pool_executor.cpp:114-120 | It gets the worker exactly when the flag is still set at the exchange |
| `IdleLedger.CounterSettles` | source/executors/thread_pool_executor.cpp:90-121 | When all threads finish what they began the counter is exact |
| `IdleLedger.MarkingConsumedOnce` | source/executors/thread_pool_executor.cpp:108-121 | Each marking of a worker as idle is taken at most once, by one acquirer or by the worker |
| `Donation.BlocksTile` | source/executors/thread_pool_executor.cpp:220-245 | The blocks, end to end, are the front of the queue, and their sizes are the share plus one for the first ones |
| `Donation.DonationPlan` | source/executors/thread_pool_executor.cpp:215-258 | The donated blocks followed by the kept tasks are the queue; block sizes differ by at most one; the donor keeps floor(T/(k+1)), at least one |
| `Donation.BulkPlan` | source/executors/thread_pool_executor.cpp:591-619 | The blocks of a bulk enqueue are all the tasks, in order, with sizes that differ by at most one |
| `ThreadPool.Pool.ChooseTargets` | source/executors/thread_pool_executor.cpp:197-213 | Chooses as many idle workers as exist, but fewer than there are tasks, never the donor |
| `ThreadPool.Pool.Donate` | source/executors/thread_pool_executor.cpp:220-245 | Each target receives its own block behind what it had, and no other queue changes |
| `ThreadPool.Pool.BalanceWork` | source/executors/thread_pool_executor.cpp:197-263 | Donor and receivers end up with the blocks of the plan and exactly the receivers lose their idle flag; without two tasks or an idle worker no queue changes |
| `ThreadPool.Pool.Enqueue` | source/executors/thread_pool_executor.cpp:557-576 | A task goes to exactly one queue: the caller's own if it appears empty or nobody else is idle, else the first idle worker's, else round robin |
| `ThreadPool.Pool.EnqueueEach` | source/executors/thread_pool_executor.cpp:583-589 | Tasks enqueued one by one give each idle worker one task in probe order, then go round robin |
| `ThreadPool.Pool.EnqueueBulk` | source/executors/thread_pool_executor.cpp:578-620 | The three cases of a bulk enqueue: the caller's private queue, one by one, or one block per worker |
| `ThreadPool.RoutingConservesTasks` | source/executors/thread_pool_executor.cpp:583-589 | Tasks sent one by one reach the workers, altogether, exactly as often as they were enqueued |
| `DonorList.Donor.BalanceWork` | source/executors/thread_pool_executor.cpp:209-262 | Donations go out in list order up to the first worker that is shut down; the list is cleared exactly when none is |
| `DonorList.ListIsStaleIffThrown` | source/executors/thread_pool_executor.cpp:241-262 | The list is non-empty between calls if and only if some earlier donation threw |
| `DonorList.StaleForEver` | source/executors/thread_pool_executor.cpp:209-262 | After a throw the list holds all that was found since and is never cleared |
| `DonorList.ThrowsForEver` | source/executors/thread_pool_executor.cpp:223-245 | After a throw every later call that gets as far as the search throws again |
| `DonorList.AssertionHoldsIff` | source/executors/thread_pool_executor.cpp:215 | Before any throw there are fewer idle workers than tasks; after it the assertion holds if and only if all that was found since fits |
| `DonorList.StaleListBreaksAssertion` | source/executors/thread_pool_executor.cpp:215 | Two calls after which the assertion fails |
| `PoolProtocol.TasksAreConserved` | source/executors/thread_pool_executor.cpp:317-364 | In every run each accepted task is in exactly one queue, started once or destroyed once |
| `PoolProtocol.OnlyShutdownDestroys` | source/executors/thread_pool_executor.cpp:497-507 | Until the shutdown of some worker ends no task is destroyed |
| `PoolProtocol.PopStartsNewest` | source/executors/thread_pool_executor.cpp:328-331 | A worker takes the newest task of its private queue and starts it |
| `PoolProtocol.RunningTaskWasStarted` | source/executors/thread_pool_executor.cpp:329-331 | A running task was started once and is in no queue |
| `PoolProtocol.EveryTaskCanStart` | source/executors/thread_pool_executor.cpp:317-380 | Until a shutdown begins some schedule, without new tasks, has every accepted task started exactly once |
| `PoolProtocol.ShutdownIsAlwaysPossible` | source/executors/thread_pool_executor.cpp:480-508 | From every reachable state the shutdown of all workers can end |
| `PoolProtocol.EnqueueOutcome` | source/executors/thread_pool_executor.cpp:412-478 | Tasks are accepted until the worker's flag is set and join the end of one queue; no other queue changes |
| `PoolProtocol.QuitOutcome` | source/executors/thread_pool_executor.cpp:302-338 | A worker that times out, or is told to stop, gives up its thread and leaves its queues as they are |
| `PoolProtocol.SwapOutcome` | source/executors/thread_pool_executor.cpp:343-364 | Until a shutdown begins a waiting worker takes its whole public queue, in order, and leaves it empty |
| `PoolProtocol.DonationOutcome` | source/executors/thread_pool_executor.cpp:235-258 | A donation moves the donor's oldest tasks, in order, behind those of the target; to a stopped worker nothing moves |
| `PoolProtocol.PrivateIsEmptyAtSwapWhileOpen` | source/executors/thread_pool_executor.cpp:359-360 | Until the shutdown of some worker has begun, the private queue is empty whenever the queues are swapped |
| `PoolProtocol.LeftoverStep` | source/executors/thread_pool_executor.cpp:317-341 | A worker leaves tasks in its private queue by exactly two steps, seeing its stop flag or donating to a stopped worker, and they stay until the next swap or the end of its shutdown |
| `PoolProtocol.FailedDonationLeavesTasks` | source/executors/thread_pool_executor.cpp:376-379 | A run in which a donation to a stopped worker ends the donor, and the donor's next thread finds its private queue filled |
| `PoolProtocol.StoppedWorkerLeavesTasks` | source/executors/thread_pool_executor.cpp:480-487 | A run in which a worker sees its stop flag before enqueues are refused, with the same effect |
| `PoolProtocol.ShutdownSettlesEveryTask` | source/executors/thread_pool_executor.cpp:480-508 | After shutdown every accepted task was started once or destroyed once |
| `PoolProtocol.ShutdownIsFinal` | source/executors/thread_pool_executor.cpp:630-639 | After shutdown no action changes the pool |
| `PoolWorker.AtMostOneThread` | source/executors/thread_pool_executor.cpp:382-410 | A worker has one thread exactly while it is not marked idle, so no enqueue starts a second one |
| `PoolWorker.SleepingWorkerIsWoken` | source/executors/thread_pool_executor.cpp:265-300 | A sleeping worker with tasks or with a shutdown has a permit waiting or coming, and on waking takes the tasks |
| `PoolWorker.EveryTaskCanBeTaken` | source/executors/thread_pool_executor.cpp:265-364 | A worker with a thread whose deadline has not passed can take every task that it accepted |
| `PoolWorker.WorkOutcome` | source/executors/thread_pool_executor.cpp:265-364 | Without tasks the worker sleeps, wakes only with a permit and goes back to sleep on a false alarm; with tasks it takes them all and lowers the flag |
| `PoolWorker.ShutdownIsAlwaysPossible` | source/executors/thread_pool_executor.cpp:480-495 | From every reachable state the worker's shutdown can end with its thread joined |
| `PoolWorker.EnqueueOutcome` | source/executors/thread_pool_executor.cpp:412-423 | An enqueue is accepted until the worker's flag is set and leaves the worker with a thread |
| `PoolWorker.StrandedOnlyByTimeOut` | source/executors/thread_pool_executor.cpp:302-310 | Before shutdown tasks lose their thread by exactly one step: a worker past its deadline retires over a non-empty queue |
| `PoolWorker.NeverStrandedWithoutTimeOut` | source/executors/thread_pool_executor.cpp:265-364 | In runs without idle time-outs queued tasks always have a thread |
| `PoolWorker.TimeOutStrandsTasks` | source/executors/thread_pool_executor.cpp:276-310 | With a time-out there is a run that leaves any number of queued tasks without a thread |
| `PoolWorker.NextEnqueueRescues` | source/executors/thread_pool_executor.cpp:382-423 | The next enqueue to such a worker starts a thread whose first region takes every queued task |
| `PoolWorker.ShutdownReachesTheWorker` | source/executors/thread_pool_executor.cpp:480-495 | After the release in shutdown a waiting thread can go on to its end; after the join no thread is left and none starts |
| `WorkerThread.BlockedWorkerIsWoken` | source/executors/worker_thread_executor.cpp:42-58 | A worker blocked on the semaphore with tasks or a shutdown has a permit waiting or coming |
| `WorkerThread.ExecutedInEnqueueOrder` | source/executors/worker_thread_executor.cpp:27-76 | Foreign tasks run in enqueue order and so do local ones, and tasks that did not run were enqueued after those of their kind that did |
| `WorkerThread.TasksAreConserved` | source/executors/worker_thread_executor.cpp:88-142 | Each accepted task is in one place; after shutdown it was run once or destroyed once |
| `WorkerThread.EveryTaskCanRun` | source/executors/worker_thread_executor.cpp:27-86 | Until shutdown the worker alone can run exactly the accepted tasks, each once |
| `WorkerThread.WorkOutcome` | source/executors/worker_thread_executor.cpp:27-76 | Without tasks the worker sleeps and goes on only with a permit, which it uses up; with tasks it takes them all and starts the oldest first |
| `WorkerThread.ShutdownIsAlwaysPossible` | source/executors/worker_thread_executor.cpp:168-197 | From every reachable state shutdown can end |
| `WorkerThread.EnqueueOutcome` | source/executors/worker_thread_executor.cpp:88-142 | Foreign and local tasks are accepted until the respective flag is set and join the end of their queue |
| `WorkerThread.ShutdownIsFinal` | source/executors/worker_thread_executor.cpp:168-197 | After shutdown nothing is accepted, run or destroyed |
| `ThreadExecutor.JoinedOnceInRetirementOrder` | source/executors/thread_executor.cpp:80-94 | Threads are joined in the order in which they retired, each once and after it finished, and at most one waits in `m_last_retired` |
| `ThreadExecutor.ShutdownWaitsForAllThreads` | source/executors/thread_executor.cpp:59-78 | The first call of shutdown returns only when every thread ever created has finished and has been joined exactly once |
| `ThreadExecutor.LaterShutdownDoesNotWait` | source/executors/thread_executor.cpp:60-63 | A run in which a later call has returned while a thread is still executing |
| `ThreadExecutor.ShutdownIsAlwaysPossible` | source/executors/thread_executor.cpp:59-94 | From every reachable state some schedule, without new tasks, ends the first call of shutdown |
| `ThreadExecutor.EnqueueOutcome` | source/executors/thread_executor.cpp:17-38 | An enqueue creates one thread, which runs the task, until shutdown is called, and is refused after that |
| `ThreadExecutor.JoinChainMakesProgress` | source/executors/thread_executor.cpp:80-94 | While a retired thread is unfinished, one thread of the join chain can finish |
| `TimerPass.VisitsExactlyTheDueTimers` | source/timers/timer_queue.cpp:90-134 | A pass visits exactly the timers due when it began and leaves all others as they were |
| `TimerPass.DueTimersFireOnce` | source/timers/timer_queue.cpp:116-125 | Unless a visited timer is due again at once, each due timer that is not cancelled fires exactly once, no other fires, and cancelled due ones are dropped |
| `TimerPass.FiringsFollowVisits` | source/timers/timer_queue.cpp:116-120 | The firings are exactly the visits that found the timer not cancelled, in the order of the visits |
| `TimerPass.VisitedOnceIffNoneRepeats` | source/timers/timer_queue.cpp:92-134 | No timer is visited twice in a pass if and only if no visited timer is put back with a deadline that is already due |
| `TimerPass.RepeatsOnlyAtZeroPeriod` | source/timers/timer.cpp:24-33 | With a clock that does not run back, that happens exactly at a period of zero and an unmoved clock |
| `TimerPass.VisitedOnceIffPeriodOrTick` | source/timers/timer_queue.cpp:92-134 | Over the readings of flags, periods and clock: a pass visits no timer twice if and only if each visited timer is one-shot, cancelled, has a period, or is visited after the clock moved |
| `TimerPass.PeriodsGiveOneFiring` | source/timers/timer_queue.cpp:87-134 | With periods of at least a millisecond each due timer is visited once and, unless cancelled, fires once, and no other timer fires |
| `TimerPass.ZeroPeriodFiresTwice` | source/timers/timer.cpp:24-33 | A pass that fires one periodic timer twice |
| `TimerPass.FrozenClockSpins` | source/timers/timer_queue.cpp:92-134 | While the clock stands still the loop can fire a timer of period zero any number of times and it is still due |
| `TimerPass.VisitedInDeadlineOrder` | source/timers/timer_queue.cpp:99-107 | Timers are visited in non-decreasing order of their deadlines, none after now |
| `TimerPass.LastVisitDecides` | source/timers/timer_queue.cpp:122-132 | After its last visit a timer is gone if one-shot or cancelled, else due one period after the clock reading, later than now |
| `TimerQueue.IndexAdd` | source/timers/timer_queue.cpp:41-45 | Inserting a timer keeps the multiset ordered and in bijection with the iterator map |
| `TimerQueue.IndexErase` | source/timers/timer_queue.cpp:47-58 | Erasing through the iterator map removes exactly the timer asked for and keeps order and bijection |
| `TimerQueue.EraseAt` | source/timers/timer_queue.cpp:55-57 | Taking a node out with its map entry leaves order and bijection, and exactly that timer is gone |
| `TimerQueue.IndexReinsert` | source/timers/timer_queue.cpp:109-133 | Extracting the first timer and inserting it with a new deadline keeps order and bijection |
| `TimerQueue.FirstIsEarliest` | source/timers/timer_queue.cpp:99-107 | The first node of the multiset holds a timer with the least deadline |
| `TimerQueue.Internal.AddTimer` | source/timers/timer_queue.cpp:41-45 | Adds the timer with its deadline and nothing else |
| `TimerQueue.Internal.RemoveTimer` | source/timers/timer_queue.cpp:47-58 | Removes the timer if it is there, leaves everything else, and does nothing for an unknown timer |
| `TimerQueue.LastRequestDecides` | source/timers/timer_queue.cpp:60-71 | After a batch a timer whose last request adds it is there with that deadline, and one whose last request removes it is not |
| `TimerQueue.UnmentionedIsUntouched` | source/timers/timer_queue.cpp:60-71 | A timer that no request mentions is as before |
| `TimerQueue.Internal.ProcessRequests` | source/timers/timer_queue.cpp:60-71 | The batch of requests takes effect in order |
| `TimerQueue.Internal.VisitFirst` | source/timers/timer_queue.cpp:97-134 | One turn of the loop refines one visit of the pass, and posts the timer unless it is cancelled |
| `TimerQueue.Internal.FireDue` | source/timers/timer_queue.cpp:92-134 | The loop terminates and carries out a pass: earliest first, until nothing is due |
| `TimerQueue.Internal.ProcessTimers` | source/timers/timer_queue.cpp:87-143 | Requests, then a complete pass over the resulting timers; returns the least remaining deadline, or a day from now if no timer is left |
| `TimerWorker.RunKeepsInv` | source/timers/timer_queue.cpp:160-228 | Every step of users and worker keeps requests, worker and timers consistent |
| `TimerWorker.NoTimerIsStranded` | source/timers/timer_queue.cpp:192-228 | While the queue is open every accepted timer is queued, with the worker, or dropped because one-shot or cancelled; unless dropped, a worker is there for it |
| `TimerWorker.RemovalIsHandled` | source/timers/timer_queue.cpp:168-175 | While the queue is open, a requested removal is still to be handled, or the timer is out and no request brings it back |
| `TimerWorker.AtMostOneWorker` | source/timers/timer_queue.cpp:254-272 | At most one worker is in its loop; when none is, the open queue holds no timer and no request to add one |
| `TimerWorker.BatchesAreInOrder` | source/timers/timer_queue.cpp:41-58 | The assertions of the request handlers hold: an added timer is new, and a removal is for a cancelled timer |
| `TimerWorker.BatchRefinesRequests` | source/timers/timer_queue.cpp:60-71 | Handling a batch step by step leaves the worker with the timers that the request handler leaves |
| `TimerWorker.VisitRefinesPass` | source/timers/timer_queue.cpp:109-133 | A visit of the worker keeps, drops and posts what the same visit of a pass does |
| `TimerWorker.EveryTimerReachesTheWorker` | source/timers/timer_queue.cpp:192-228 | While the queue is open and has a worker, the worker alone can handle every request: each accepted timer is then with it, or dropped |
| `TimerWorker.AddOutcome` | source/timers/timer_queue.cpp:177-190 | Until shutdown a new timer is accepted, queued last, and a worker is there for it |
| `TimerWorker.CancelOutcome` | source/timers/timer.cpp:69-84 | Cancelling marks the timer before its removal is queued |
| `TimerWorker.RetirementOutcome` | source/timers/timer_queue.cpp:198-220 | When its wait ends a worker without timers and requests retires, and any other takes the requests |
| `TimerWorker.ShutdownOutcome` | source/timers/timer_queue.cpp:234-248 | The first shutdown closes the queue and discards the waiting requests; a later one does nothing |
| `TimerWorker.ShutdownIsAlwaysPossible` | source/timers/timer_queue.cpp:234-252 | From every reachable state shutdown can end the worker |
| `TimerWorker.OneshotFiresOnce` | source/timers/timer_queue.cpp:122-125 | A one-shot timer fires at most once in the life of the queue |
| `TimerWorker.DroppedFiresNoMore` | source/timers/timer.cpp:69-84 | After its removal is handled, or it was found cancelled, a timer never fires again |
| `TimerWorker.ShutdownIsFinal` | source/timers/timer_queue.cpp:234-252 | After shutdown no timer is accepted and the worker takes no further batch |

## Left out

- AsyncLockProtocol, ConditionVariable, WhenAny, ResultState, PoolProtocol, WorkerThread, ThreadExecutor, TimerWorker: interleaved protocols are state machines over values; addresses and the lifetime of objects appear only where the protocol depends on them.
- ConditionVariable.NoMissedNotification: the async lock appears only as its owner; its own queue, and that a relock which fails holds the lock for a moment, are in AsyncLockProtocol.
- Notification.AsyncConditionVariable.NotifyAll: awaiters and other notifications act between resumptions, not inside one list operation, because the mutex excludes that.
- DonorList.Donor.BalanceWork: who is shut down is read once per call; how the tasks are cut is in Donation and ThreadPool.
- ConditionVariableRelease.Awaiting.AwaitSuspend: the code behind the failed waiters goes on after the unlock, still under the mutex, instead of inside its nested retries.
- WhenAny.LateProducerResumesNothing: the inputs stay alive; an input that is dropped before its producer has read the consumer context is in ResultState.
- AsyncLockHandOff.AsyncLock.Unlock: runs without interference; interference is in AsyncLockProtocol.
- ThreadPool.Pool.Enqueue: takes what `appears_empty` reads as a parameter and runs without interference; PoolProtocol covers every routing under interference.
- Progress is proved as possibility: from every reachable state a good continuation exists. That a scheduler takes it is not modelled.
- TimerPass.LastVisitDecides: a tick is a nanosecond, as in the common implementations of `high_resolution_clock`.
- TimerQueue.Internal.ProcessTimers: cancellation flags, frequencies and the clock are arbitrary readings, one per turn; `high_resolution_clock` is not required to be steady by the C++ standard, the model requires readings not before the start of the pass.
- TimerWorker.NoTimerIsStranded: deadlines are abstracted, any timer that the worker holds may be visited.
- Weak memory orders, real clocks, thread creation, thread names and callbacks.
- Fairness of `async_lock`: newcomers may overtake queued waiters.
- `manual_executor`, `inline_executor`, `runtime`, `lazy_result`, `make_result`, `generator`: each is settled by one branch or one mutex.
- `when_all`, which awaits its inputs one after another, and blocking or timed waiting on a `shared_result`.
- `await_via_functor` and `resume_on` beyond "resumed on its executor, or interrupted when the executor is shut down".
- The layout of `task`, value and exception storage, exceptions from user callables, allocation failure, and checks for null or empty arguments.
- Routing between several pools, and the timer callable's own check of the cancellation flag when its executor runs it.
