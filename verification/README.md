# libtcr: what its interleavings keep

libtcr runs many coroutines (`tc_thread`s) on a few worker pthreads. Its correctness rests on how
short spinlocked sections interleave. This project models those sections, lets any number of
threads, workers and callers interleave them in any order, and proves what holds in every run.

Three kinds of modules:

* **Imperative code** that the library runs under a lock, as classes and methods with the loops of
  the source, each proved equal to a specification function: `Scheduler.EventCore` (event lists,
  dispatch, waits, wakeups), `Ring` (the CLIST on the heap and the deferred free that uses it),
  `Timer` (timespec arithmetic, the timer list).
* **Specification functions** for those sections: `Events` and `Runtime` (event core),
  `Dispatching` (the search through `immediate`), `FdEvents` (waking the waiters of an fd),
  `GracePeriod`, `Timer`.
* **State machines** whose steps are those sections and the unlocked accesses between them:
  `Machine` with `Steps`, `ClientSteps`, `LockSteps`, `Runs` (event core, signals and mutexes;
  results in `Wakeups`, `Sources`, `WokenBy`, `MutexRuns`, `StaleWaits`), `GracePeriod`, `Sleepers` (tc_sleep),
  `RwLock`, `Lifecycle` (who executes which stack), `Join`, `ParallelFor`, `Alerting` (who gets a
  worker out of epoll_wait), `Spinlock`, `LockOrder`.

A machine has a `Guard` (where each participant is, and what the library asks of its callers), a
function `Apply`, a predicate for whole runs (`Run` or `Execution`) and an invariant with a lemma
`Reachable`: the invariant holds in every state of every run, of any length, with any number of
participants.

Where code and intent part ways, the model follows the code:

* `tc_waitq_finish_wait` does not pop the event stack when it reports an interrupt
  (tcr/threaded_cr.c:2018-2040). If the interrupted wait was nested in the condition of another
  wait, that outer wait is *stale*: its wakeup no longer reaches it. `Wakeups.WakeupReaches` says
  exactly when a wakeup arrives, `StaleWaits.WakeupLost` is a run in which it does not. The same
  function can then follow a null `woken_by_event`: `StaleWaits.SafeIff` says exactly when, and that
  nothing else goes wrong in any run; `FinishCrashes` is such a run.
* `tc_sleep` leaves `tv_nsec` at exactly 10^9 where a whole second was meant
  (tcr/threaded_cr.c:2484-2487); `Timer.CompareTies` says which deadlines this misorders.
* A deadline with a negative `tv_nsec`, which `tc_sleep` accepts, is taken for reached up to a
  second late; `Timer.CompareClock` says exactly when.
* `spin_trylock_plain` cuts a 64-bit word down to an int (tcr/spinlock.h:94-98);
  `Spinlock.ExclusiveIff` shows that mutual exclusion rests on the remark "must not be 0".
* A pthread that is not a worker keeps the default marker (tcr/spinlock.c:9) and shares its tid with
  the others of its kind; `Spinlock.AlarmIff` shows that the deadlock detection then fires for a
  lock that another thread has. Mutual exclusion does not suffer.
* `tc_thread_pool_new` goes on when a thread cannot be created (tcr/threaded_cr.c:1563-1564);
  `ParallelFor.ExactlyOnce` holds unless none could.

## Model

| member | source | states |
|---|---|---|
| Events.RemovePlaced | tcr/threaded_cr.c:444-463 | Taking an event off its list keeps the placement invariant: `el` names the one list that holds the event, `refcnt` counts the thread's listed events, `immediate_count` is the length of `immediate` |
| Events.RelocatePlaced | tcr/threaded_cr.c:520-528 | Moving an event to another list keeps the placement invariant |
| Events.AddPlaced | tcr/threaded_cr.c:486-496 | Listing an event keeps the placement invariant |
| Runtime.PickSpec | tcr/threaded_cr.c:820-845 | What tc_scheduler returns with is on the thread's pending list; it parks only if pending holds neither a signal nor the awaited event, and an awaited event that is pending is what it returns with |
| Runtime.PickExact | tcr/threaded_cr.c:820-845 | Which event it is: the first pending one if nothing is awaited; the awaited one if it is pending, whatever signals are; else the last signal; else none |
| Runtime.RunOrQueueKeeps | tcr/threaded_cr.c:643-698 | run_or_queue keeps the invariant of the event core: placement, nothing deliverable left on a parked thread's pending list, subscriptions on one of their three lists |
| Runtime.ScheduleKeeps | tcr/threaded_cr.c:815-878 | tc_scheduler keeps it, whether it returns or parks |
| Runtime.FinishKeeps | tcr/threaded_cr.c:1990-2041 | tc_waitq_finish_wait keeps it on all three exits |
| Runtime.FinishEffect | tcr/threaded_cr.c:1990-2041 | What finish leaves: the awaited event off its list, at most the waking signal moved, and to pending; nothing else touched |
| Runtime.WakeAllSpec | tcr/threaded_cr.c:2127-2170 | tc_waitq_wakeup_all empties the queue onto the head of `immediate`, the latest waiter first; no other event moves |
| Dispatching.PassMeaning | tcr/threaded_cr.c:700-750 | One pass over `immediate`: it stops at the first wanted event whose thread can run or has exited; earlier wanted events go, in order, to their threads' pending lists; unwanted and later events stay, in order; it finds nothing exactly when no wanted event can run |
| Dispatching.PassRestarts | tcr/threaded_cr.c:706-725 | Starting over at the head after queueing an event equals going on behind it |
| Dispatching.SearchEnds | tcr/threaded_cr.c:700-750 | The whole of _run_immediate, with exited threads freed on the way and the search taken up again: it ends, with a thread to switch to or with no wanted event left on `immediate`, and keeps the invariant |
| Dispatching.SearchServes | tcr/threaded_cr.c:710-725 | In plain terms: _run_immediate switches to a thread of its own domain that the worker number asks for; it comes back with nothing only if no such thread has an event on `immediate`; threads that are not asked for, of other domains above all, and their events are left alone |
| FdEvents.WakeFdExact | tcr/threaded_cr.c:381-415 | wakeup_all_events: the first waiter of this worker, or else the first, is returned and stays; all others go to the tail of `immediate`, in the code's order; nothing else moves |
| Scheduler.EventCore.UnlinkCounted | tcr/threaded_cr.c:444-454 | The list without the event and the counter one down |
| Scheduler.EventCore.RemoveEvent | tcr/threaded_cr.c:456-463 | The new lists, counters and `el` are those of Events.Remove |
| Scheduler.EventCore.MoveEvent | tcr/threaded_cr.c:520-528 | The new lists and counters are those of Events.Relocate |
| Scheduler.EventCore.AddEvent | tcr/threaded_cr.c:486-496 | The new lists and counters are those of Events.Add |
| Scheduler.EventCore.RunOrQueue | tcr/threaded_cr.c:643-698 | New state and returned thread are those of Runtime.RunOrQueue; the invariant is kept |
| Scheduler.EventCore.RunImmediate | tcr/threaded_cr.c:700-750 | The search that frees exited threads and goes on ends, and does what Dispatching.Search says |
| Scheduler.EventCore.SearchImmediate | tcr/threaded_cr.c:706-725 | Its locked part, a loop that restarts at the head after every queued event, does what the single ordered pass does |
| Scheduler.EventCore.ThreadFree | tcr/threaded_cr.c:562-576 | The thread, its counter and its events are gone, and nothing else |
| Scheduler.EventCore.TcScheduler | tcr/threaded_cr.c:815-878 | The search loop finds the event Runtime.Pick defines; the new state is that of Runtime.Schedule |
| Scheduler.EventCore.PrepareToWait | tcr/threaded_cr.c:1970-1988 | The new state is that of Runtime.Prepare; the invariant is kept |
| Scheduler.EventCore.FinishWait | tcr/threaded_cr.c:1990-2041 | New state and return value are those of Runtime.Finish; the invariant is kept |
| Scheduler.EventCore.WakeupOne | tcr/threaded_cr.c:2055-2094 | The first waiter, if there is one, goes to the head of `immediate` |
| Scheduler.EventCore.MutexUnlock | tcr/threaded_cr.c:1894-1903 | The first waiter goes to `immediate` and its thread becomes the owner; without a waiter the mutex is free |
| Scheduler.EventCore.WakeupAll | tcr/threaded_cr.c:2127-2170 | The loop does what Runtime.WakeAll says; the invariant is kept |
| Scheduler.EventCore.WakeupAllEvents | tcr/threaded_cr.c:381-415 | The loop does what FdEvents.WakeFd says; the invariant is kept |
| Scheduler.EventCore.MutexTryLock | tcr/threaded_cr.c:1905-1912 | The compare-and-swap on `m_owner`: won exactly when the mutex was free |
| Runs.StepSafe | tcr/threaded_cr.c:444-528 | In every interleaving the assertions, null tests, endless spin and message exits in the code of a step are not reached, among them tc_die's complaint about refcnt; the finish of a client wait is StaleWaits.SafeIff |
| Runs.StepKeeps | tcr/threaded_cr.c:643-878 | Every step, from thread creation to exit, keeps the whole machine invariant: event stacks, waits nested to any depth, the list each event was put on, mutex owners and queues |
| Runs.Reachable | tcr/threaded_cr.c:643-878 | The machine invariant holds in every state of every run |
| Runs.FireIsWakes | tcr/threaded_cr.c:2127-2170 | A wakeup_all, and so tc_signal_fire, is a stretch of steps of the machine |
| Wakeups.Conservation | tcr/threaded_cr.c:444-554 | In every run, thread exits included, `el` names the only list that holds an event, each list holds it once, `refcnt` and `immediate_count` are exact, and the "IMM < 0" branch is not taken |
| Wakeups.ExitIsLast | tcr/threaded_cr.c:1407-1435 | While the exit event of a thread is listed, nothing else of that thread is; so freeing it leaves no event behind |
| Wakeups.NoLostWakeup | tcr/threaded_cr.c:643-698 | A parked thread's awaited event is on the very list it was put on (the waitqueue, the fd, the mutex's queue; `immediate` for a yield and a new thread) or on `immediate`, and its pending list holds neither a signal nor the top of its event stack; only the event of a stale wait can be on pending |
| Wakeups.WokenByItsQueue | tcr/threaded_cr.c:2127-2170 | tc_waitq_wakeup_all on the queue a thread waits on leaves its event on `immediate`, unless the wait is stale |
| Wakeups.WokenByItsFd | tcr/threaded_cr.c:381-415 | wakeup_all_events on the fd a thread waits for leaves its event on `immediate`, or hands it to run_or_queue, which sets the thread going |
| Wakeups.WakeupReaches | tcr/threaded_cr.c:664-695 | An event on `immediate` wakes the parked thread that waits for it exactly when the wait is not stale; otherwise it is queued and the thread sleeps on |
| Wakeups.DispatchIsRunOrQueue | tcr/threaded_cr.c:643-698 | run_or_queue hands out a thread to run exactly when it takes it from parked to running |
| Wakeups.SingleDispatch | tcr/threaded_cr.c:643-698 | Between two dispatches of a thread it has been in tc_scheduler, or was freed and its memory given to another |
| Wakeups.SubscriptionPlaced | tcr/threaded_cr.c:2194-2247 | From subscribe to unsubscribe the event is on exactly one of the signal's waiters, `immediate` and its owner's pending list; so fires before delivery coalesce |
| Wakeups.SignalNotLost | tcr/threaded_cr.c:656-695 | Over whole runs a fired signal stays on `immediate` or pending until its owner is woken with it or unsubscribes |
| Wakeups.DeferredSignalReturns | tcr/threaded_cr.c:820-852 | A signal on pending makes the next tc_scheduler return at once, with the awaited event or a signal |
| Wakeups.AwaitedFirst | tcr/threaded_cr.c:825-829 | Over all runs: an awaited event that is pending when tc_scheduler is entered is what it returns with, signals or not; for waits, yields, fd waits and mutex waits |
| Wakeups.FinishReports | tcr/threaded_cr.c:1990-2041 | Back from the scheduler, a wait that is not stale cannot fault, and reports an interrupt exactly when its event is still on the queue it was put on; if a signal woke the thread although the event had fired, the signal is back on pending |
| Wakeups.DirectReports | tcr/threaded_cr.c:1385-1405 | The end of a yield or an fd wait reports an interrupt exactly when a signal brought the thread back, its own event being listed still; the event then is on no list; what stays noted as waking event |
| StaleWaits.FinishFaultsIff | tcr/threaded_cr.c:2016-2021 | The finish of a client wait faults exactly when it comes straight from the condition and either a nested wait was interrupted and nothing is noted as the waking event since, or the signal noted has been unsubscribed |
| StaleWaits.SafeIff | tcr/threaded_cr.c:444-528 | Over all steps and runs, that is the only assertion, null pointer, endless spin or message exit that is reached |
| WokenBy.AlwaysNoted | tcr/threaded_cr.c:690-695 | In every run, outside tc_scheduler, woken_by_event is null or a subscription of the thread itself, cancelled or not |
| Sources.PutStep | tcr/threaded_cr.c:486-554 | Prepare, subscribe, fd wait, yield, new thread and exit list their event at the tail of the list that was asked for, for the calling thread, with the right kind |
| Sources.PutThread | tcr/threaded_cr.c:1970-1981 | What that does to event_stack and woken_by_event |
| Sources.StaysWithin | tcr/threaded_cr.c:520-528 | Over all runs an event stays on the list its caller asked for until it goes on to `immediate` or pending, and keeps thread and kind |
| Sources.SleepsWhereAsked | tcr/threaded_cr.c:1970-1981 | A thread asleep in a wait begun by some earlier step: its event is on the list that step named or on `immediate`, unless the wait is stale |
| Sources.FireReaches | tcr/threaded_cr.c:2194-2205 | Over all runs: a fire of the signal subscribed to makes the subscription active, for the subscriber |
| Sources.GoneForGood | tcr/threaded_cr.c:2226-2247 | An unsubscribed event is on no list any more; a freed thread is gone with all its events |
| Sources.StackRestored | tcr/threaded_cr.c:1998-2040 | Over all runs: a wait that reports success leaves the event stack as it was before its prepare, whatever was waited for in between; one that reports an interrupt leaves it unpopped |
| StaleWaits.WakeupLost | tcr/threaded_cr.c:2018-2040 | A run in which the awaited event fires and its thread sleeps on, because a nested wait was interrupted before |
| StaleWaits.FinishCrashes | tcr/threaded_cr.c:2018-2021 | A run after which finish follows the null pointer |
| MutexRuns.LockReturnsRight | tcr/threaded_cr.c:1868-1892 | tc_mutex_lock returns RV_OK exactly when the caller owns the mutex, RV_INTR only when it does not |
| MutexRuns.NeverOrphaned | tcr/threaded_cr.c:1868-1903 | `m_owner` always names a thread in its critical section or one whose tc_mutex_lock is under way |
| MutexRuns.MutualExclusion | tcr/threaded_cr.c:1868-1903 | One thread at most is in the critical section, and it is the owner |
| MutexRuns.NotParkedOnFree | tcr/threaded_cr.c:1868-1903 | No thread is parked on a free mutex; if it was handed the mutex, its event is on `immediate` |
| MutexRuns.HandoverEndsOk | tcr/threaded_cr.c:1990-2089 | Over whole runs: once unlock has made a waiting thread the owner, its lock call returns RV_OK, whatever signals arrive |
| MutexRuns.QueueStep | tcr/threaded_cr.c:486-496 | No step lets a later waiter pass an earlier one; only an unlock or the waiter's own finish takes it off the queue |
| MutexRuns.FairQueue | tcr/threaded_cr.c:2055-2089 | Over whole runs a waiter that stays queued moves up one place for every unlock |
| MutexRuns.FairMutex | tcr/threaded_cr.c:2055-2089 | Over whole runs: among k + 1 unlocks there is one that makes a waiter at position k the owner, unless its lock call ended before, with the mutex or with RV_INTR; until then it is queued |
| MutexRuns.FreedOnlyWhenEmpty | tcr/threaded_cr.c:2065-2070 | `m_owner` becomes NULL only by an unlock that finds nobody queued |
| MutexRuns.TryLockExact | tcr/threaded_cr.c:1905-1912 | tc_mutex_trylock takes the mutex exactly when it is free, and changes nothing otherwise |
| GracePeriod.MarkSpec | tcr/threaded_cr.c:1813-1830 | The loop over the sleepers flags exactly those not flagged before and counts each of them |
| GracePeriod.StepKeeps | tcr/threaded_cr.c:1700-1841 | Every step keeps: a worker in the section is on the ring or has must_sync, never both; holders of a listed fd have must_sync; the barrier counts must_sync; the free list is empty when it is 0 |
| GracePeriod.NoUseAfterFree | tcr/threaded_cr.c:1733-1841 | In every run, when a tc_fd is freed no worker has it in hand from epoll_wait, and it was not freed before |
| GracePeriod.HeldIsAlive | tcr/threaded_cr.c:946-1059 | What a worker has in hand is neither freed nor taken off the free list, and if it is listed the worker has must_sync |
| GracePeriod.BarrierExact | tcr/threaded_cr.c:1748-1841 | sync_barrier is the number of workers with must_sync, the free list is empty without one, the ring holds each flagged worker once and nobody on it has must_sync |
| GracePeriod.DrainsExactly | tcr/threaded_cr.c:1758-1841 | Memory is handed over exactly when no worker has to sync any more: everything stored so far, the latest first |
| Ring.InsertAfter | tcr/clist.h:15-20 | The four pointer assignments turn a well-formed ring into the ring with the entry behind the given one |
| Ring.Remove | tcr/clist.h:22-25 | The two pointer assignments turn it into the ring without the entry |
| Ring.IsEmpty | tcr/clist.h:27-27 | True exactly when the head is alone |
| Ring.SyncDomain.PrepareSleep | tcr/threaded_cr.c:1748-1756 | For a worker that does not have to sync, as outside the section none does: the heap ring stays well formed with the flagged workers as members, each once, and the new state is that of GracePeriod.PrepareSleep |
| Ring.SyncDomain.AfterSleep | tcr/threaded_cr.c:1758-1783 | The same for worker_after_sleep, with the list handed to _process_free_list |
| Ring.SyncDomain.MarkSleepers | tcr/threaded_cr.c:1813-1830 | The walk along cl_next visits every sleeper once and ends |
| Ring.SyncDomain.StoreForLaterFree | tcr/threaded_cr.c:1800-1841 | The new state and what is freed at once are those of GracePeriod.Store; the ring is empty and well formed |
| Timer.CompareClock | tcr/threaded_cr.c:2325-2338 | Against a clock reading compare_ts_times orders by total nanoseconds for tv_nsec in [0, 10^9]; for a negative tv_nsec it says reached exactly when the total and the seconds are |
| Timer.CompareTies | tcr/threaded_cr.c:2325-2338 | Between deadlines it never contradicts the totals, and separates equal ones exactly when one is a whole second written as 10^9 ns |
| Timer.AbsEnd | tcr/threaded_cr.c:2481-2487 | The normalising loop keeps the total and ends with tv_nsec at most 10^9 |
| Timer.TimerDelta | tcr/threaded_cr.c:2364-2376 | The difference in normal form; expiry is reported exactly when later <= earlier for tv_nsec in [0, 10^9], and for all inputs exactly when the report is right |
| Timer.InsertSorted | tcr/threaded_cr.c:2409-2434 | The list stays sorted by abs_end, a newcomer behind those with the same abs_end, and gains just that waiter |
| Timer.DueExact | tcr/threaded_cr.c:2545-2559 | The wake loop takes off exactly the waiters whose abs_end has come, for any abs_end tc_sleep can compute |
| Timer.TimerList.InsertWaiter | tcr/threaded_cr.c:2409-2440 | The search loop inserts where Timer.Insert says, and reports whether the waiter is first |
| Timer.TimerList.WakeDue | tcr/threaded_cr.c:2545-2559 | The loop splits the list into the due waiters, in order, and the rest |
| Sleepers.StepKeeps | tcr/threaded_cr.c:2460-2575 | Every step of every tc_sleep call keeps the invariant of list, master and waiters |
| Sleepers.NoEarlyReturn | tcr/threaded_cr.c:2447-2575 | In every run tc_sleep returns RV_OK only once the clock has reached abs_end, and its waiter is off the list on return |
| Sleepers.SleepsLongEnough | tcr/threaded_cr.c:2481-2487 | Over all runs abs_end is the clock at the call plus the time asked for, so RV_OK comes only when that much time has gone by |
| Sleepers.InterruptedIff | tcr/threaded_cr.c:2500-2575 | tc_sleep returns RV_INTR exactly if a signal ended its yield or the master's wait for the timer, or its own wait ended with nobody having woken it |
| Sleepers.UninterruptedIsOk | tcr/threaded_cr.c:2500-2575 | A call that no signal interrupts in its yield, its wait or its wait for the timer returns RV_OK |
| Sleepers.DoneExactly | tcr/threaded_cr.c:2447-2454 | waiting_done: done exactly when off the list or when the time has come; where sleeper and master go then |
| Sleepers.MasterWaits | tcr/threaded_cr.c:2530-2541 | The master waits for the timer exactly when the head of the list is due later than the clock reading it has taken, and goes on to the wake loop otherwise |
| Sleepers.NoStrandedSleepers | tcr/threaded_cr.c:2341-2361 | In every run, with sleepers on the list and timer_mutex free, some call is awake or woken up and bound to try for the mutex or to wake the head |
| Sleepers.CommittedMoves | tcr/threaded_cr.c:2505-2575 | Such a call can always move, and each move takes the mutex, wakes the head or brings it closer to one of them |
| Sleepers.CommittedArrives | tcr/threaded_cr.c:2505-2575 | Left to itself it has the mutex, or has left and woken the head, after eight steps at most |
| Sleepers.TimerListGood | tcr/threaded_cr.c:2505-2575 | One master at most; the list sorted, ties in order of insertion; LIST_FIRST is never null where the master follows it; timer_sleepers counts the calls under way |
| Sleepers.WakeLoopExact | tcr/threaded_cr.c:2545-2559 | In every run the wake loop removes exactly the waiters whose abs_end has come, and none of their events is left waiting |
| RwLock.StepKeeps | tcr/threaded_cr.c:2588-2628 | Every step of lock, trylock, unlock and downgrade keeps the invariant |
| RwLock.WriterAlone | tcr/threaded_cr.c:2600-2628 | In every run a writer implies readers == 0, no thread with a read hold and no other writer |
| RwLock.ReadersExact | tcr/threaded_cr.h:478-492 | readers is the number of read holds, and a free mutex is never unlocked |
| RwLock.NoStrandedWriter | tcr/threaded_cr.c:2600-2614 | A writer asleep on wr_wq has a reader to wait for, or one between its decrement to zero and its wakeup, and it is alone on the queue |
| RwLock.NoOvertaking | tcr/threaded_cr.c:2585-2614 | While a writer has the mutex the reader count only goes down |
| RwLock.ActsSimply | tcr/threaded_cr.h:478-492 | Refinement of a simple rw-lock, a count of holds and a writer flag for each thread: every step changes nothing, or one hold, or the writer, or both for tc_rw_w2r_lock, of the thread it should |
| RwLock.ActsWhenAllowed | tcr/threaded_cr.c:2588-2628 | In every run a reader gets in only while nobody writes, a writer only while nobody reads or writes |
| RwLock.ReadCall | tcr/threaded_cr.c:2588-2598 | tc_rw_r_lock ends with one hold more, or by an interrupt of its mutex lock with none |
| RwLock.WriteStep | tcr/threaded_cr.c:2600-2614 | A writer that sees no readers gets the lock; a wait whose event was woken never ends the call |
| RwLock.WriteCallEnds | tcr/threaded_cr.c:2600-2614 | tc_rw_w_lock ends with the lock after seeing no readers, or without it by an interrupt of the mutex lock or of the wait |
| RwLock.AbortsOnSignal | tcr/threaded_cr.c:2605-2612 | It gives the mutex back only after a signal has ended its wait while nobody had woken it |
| RwLock.TryCall | tcr/threaded_cr.c:2616-2628 | tc_rw_w_trylock has the lock exactly if the mutex was free and it saw no readers |
| Lifecycle.StackExclusive | tcr/threaded_cr.c:578-602 | In every run no stack is executed by two workers, also in the middle of a switch |
| Lifecycle.OneClaim | tcr/threaded_cr.c:643-698 | From dispatch to park a thread belongs to one worker |
| Lifecycle.DeletedAlone | tcr/threaded_cr.c:562-576 | When tc_thread_free deletes a stack no other worker is on it, on its way to it, about to release its lock or freeing it |
| Lifecycle.FreedUntouched | tcr/threaded_cr.c:562-602 | No worker touches a thread that is gone |
| Lifecycle.AlwaysTended | tcr/threaded_cr.c:578-602 | A thread marked TF_RUNNING is on a worker's stack or on its way there; one that is being freed has its worker |
| Lifecycle.NeverBack | tcr/threaded_cr.c:1407-1435 | A thread that has posted its exit event is never dispatched again, and one that is freed stays freed |
| Lifecycle.ExitStages | tcr/threaded_cr.c:1431-1435 | What park, exit and free make of the thread |
| Lifecycle.SpinEnds | tcr/threaded_cr.c:578-602 | A worker that spins on a running lock waits for one that is leaving that stack and whose next step, never itself a spin, brings the release closer |
| Join.JoinedHasExited | tcr/threaded_cr.c:1931-1963 | tc_thread_wait_ref returns RV_OK only after that thread left the domain's list and woke its waiters; with an id it is the thread meant, even if its address is in use again |
| Join.NoLateWaiter | tcr/threaded_cr.c:1407-1435 | After the exit wakeup exit_waiters stays empty, so the "still waiters" exit of tc_thread_free is not reached and no list of a freed thread is touched |
| Join.LookupExact | tcr/threaded_cr.c:1920-1953 | A call sleeps on the linked thread at its reference's address, if there is one and it has the id asked for, or any id when the reference has none; otherwise RV_THREAD_NA; there is one such thread at most |
| Join.CallStep | tcr/threaded_cr.c:1938-1962 | Without a thread the call returns RV_OK at once; a call whose event was woken returns RV_OK, one whose event was not RV_INTR |
| Join.IntrIsSignal | tcr/threaded_cr.c:1955-1962 | RV_INTR comes only because a signal woke the caller while the thread had not |
| ParallelFor.AtMostOnce | tcr/threaded_cr.h:383-400 | In every interleaving a body runs at most once per value, and for no value outside [a, b) |
| ParallelFor.ExactlyOnce | tcr/threaded_cr.h:383-414 | When the wait returns uninterrupted, every value of [a, b) has gone through exactly one body that has returned, exactly when a pool thread was created or there was nothing to do |
| Alerting.StepKeeps | tcr/threaded_cr.c:700-789 | Every listing, write, scan, report, read and re-arming keeps the invariant below |
| Alerting.NobodyOversleeps | tcr/threaded_cr.c:752-789 | In every run, while an event of the domain is on `immediate`, a worker is up and will go through all of `immediate` before it blocks, or immediate_fd is readable and armed, or somebody is about to write it; also for events listed without a write, by a yield or by the fd handler |
| Alerting.LooksUntilEmpty | tcr/threaded_cr.c:752-771 | A worker gives up looking only after a pass over all of `immediate` that found nothing |
| Alerting.LookersLook | tcr/threaded_cr.c:752-771 | A worker that looks comes to the pass over all of `immediate` within ten of its own moves |
| Alerting.EmptyRoundSleeps | tcr/threaded_cr.c:752-771 | A round in which all passes find nothing ends in a blocking epoll_wait |
| Alerting.SleepersAreWoken | tcr/threaded_cr.c:942-984 | With all workers blocked in epoll_wait and no write outstanding, an event on `immediate` means that epoll_wait has a report to return |
| Alerting.OneReport | tcr/threaded_cr.c:773-789 | One worker at most handles a report, the eventfd is disarmed exactly meanwhile, and the read finds something |
| Spinlock.ZeroMeansFree | tcr/spinlock.h:94-98 | The int result of a failed trylock is 0 exactly when the owner's tid is 0 |
| Spinlock.TruncatedTid | tcr/spinlock.c:60-71 | What the slow loop stores after a failed trylock has the owner's tid and not its cpu |
| Spinlock.Exclusive | tcr/spinlock.c:39-122 | With tids that are not 0, shared or not, one thread at most has the lock, in every run |
| Spinlock.SpinnersExact | tcr/spinlock.c:52-121 | spinners is the number of threads in the slow loop that are not asleep |
| Spinlock.FreeIsTaken | tcr/spinlock.h:78-98 | A try on a free lock gets it, and an unlock frees it |
| Spinlock.NamelessBreaks | tcr/spinlock.h:47-65 | A single marker with tid 0 lets two threads in |
| Spinlock.ExclusiveIff | tcr/spinlock.h:47-65 | Mutual exclusion in every run holds exactly when no tid is 0 |
| Spinlock.SharedTidAlarms | tcr/spinlock.c:68-71 | A run in which two threads with one tid raise the deadlock alarm while the other has the lock |
| Spinlock.AlarmIff | tcr/spinlock.c:68-71 | With tids that are not 0, the alarm stays silent in every run exactly when no two threads share a tid |
| LockOrder.OperationOrdered | tcr/threaded_cr.c:1973-2085 | Every operation takes its locks in strictly increasing rank (domain, timer, sync and fd locks, then immediate, pending, waitqueue) and gives all of them back |
| LockOrder.NoCircle | tcr/threaded_cr.c:1943-2085 | In no run do workers wait for each other's spinlocks in a circle |
| LockOrder.NoDeadlock | tcr/threaded_cr.c:1943-2085 | While an operation is under way, some worker can go on with one |

## Left out

- Runs.StepSafe: leaves out the finish of a client wait, which can fault; StaleWaits.SafeIff has the exact condition.
- Wakeups.NoLostWakeup: the event of a stale wait may be on pending, because the code loses that wakeup; StaleWaits.WakeupLost is the run.
- Every wait uses a fresh event identifier; the same event on the stack of a loop is a new identifier each time round, and memory noted as a waking event is not used again meanwhile.
- `worker->woken_by_event` is kept with the thread the worker executes.
- In the event machine only the holder unlocks a mutex and only the subscriber unsubscribes; `tc_mutex_change_owner` is not modelled.
- A thread that exits holds no mutex and no subscription; `signal_cancel_pending` and `tc_signal_destroy` are not modelled.
- Alerting: fd waiters belong to the domain that watches the fd.
- Sleepers, RwLock and Join see a wait from outside (not in use, waiting, fired), which Wakeups.FinishReports justifies for waits that are not stale; they and ParallelFor take mutex and spinlock sections as atomic.
- RwLock passes the mutex to any waiter, not only the first; its order is MutexRuns.FairMutex.
- Which event of an fd without an error is chosen (`matching_event`): a run may move or dispatch any of them.
- Spinlock: when the slow loop sleeps and for how long is arbitrary; spin counts and delays are not modelled.
- Integer widths other than the spinlock word: thread ids, counters and seconds are unbounded, and 10^9 as a double is taken as exact.
- Liveness beyond the progress lemmas: schedulers may be unfair, and an IWI_SYNC signal that comes too early only delays a free.
- timerfd programming, epoll, eventfd, tgkill, the context switch itself, asynchronous I/O, domains and CPU affinity: effects outside the model, or steps that may happen at any time.
- `tc_signals_since_last_call`, `tc_thread_pool_wait`'s return values, `tc_parallel`, debug dumps and diagnostics: they would only add easy members.
