# Verified protocols of the task runner

A Dafny model of the concurrency protocols of this task scheduler: who may run when, in
which order, and what can never be lost. `dafny verify dfyconfig.toml` checks it.

**How a protocol is modelled.** Each one is a state machine with one event per atomic
operation of the code: a lock section, a CAS, an atomic load or store, a channel send or
receive, a select. Goroutines and calls in progress are threads with a program counter in
the state. `Enabled` says which events are possible, `Apply` what each does, and
`Reachable` ranges over every interleaving of every run (`runs.dfy`). An inductive
invariant is proved step by step; the theorems then speak of every reachable state.
History fields (calls, pushes, executions, writes) exist only so that theorems can mention
them. Many theorems are tied to an event and not to the state it leads to: `Took(s, e, t)`
says that t follows s by event e, and the theorem says what then holds in every state that
any run reaches from t.

**How the code's form is kept.** Beside each machine stands the class with the source's
fields. Each of its methods is one atomic operation that assigns those fields, and its
contract equates the whole new state with the machine's step and keeps the fields
reachable, so all theorems hold of the object. The heap, the two task queues, the delay
manager's heap operations, the retry loop and the bus's map updates are written as the
in-place algorithms they are, with loops and arrays.

| file | what it models |
|---|---|
| `task_scheduler.dfy` | PostInternal and GetWork on a signal channel that drops signals; pool workers |
| `scheduler_calls.dfy` | what a caller of the pool may rely on |
| `graceful_shutdown.dfy` | what a caller of ShutdownGraceful can know at the call |
| `sequenced_runner.dfy` | the lock-free run token of the sequenced runner |
| `sequenced_calls.dfy` | what a caller of that runner may rely on |
| `composition.dfy` | any number of sequenced runners on one such pool |
| `parallel_runner.dfy` | bounded dispatch with barriers: closures on the internal goroutine, decrements by workers |
| `parallel_calls.dfy` | that its slots are filled and every item sent runs |
| `single_thread_runner.dfy`, `single_thread_calls.dfy` | the runner behind a channel of 100 that serialises those closures; what its callers may rely on |
| `job_manager.dfy`, `job_manager_invariant.dfy`, `job_manager_runs.dfy` | admission, persistence, execution, cancellation and finalization across three runners; their invariant; what every run guarantees |
| `job_manager_progress.dfy` | a bound on the steps its runners take by themselves |
| `job_manager_writes.dfy` | which final writes have reached the store |
| `job_manager_outcomes.dfy`, `job_manager_calls.dfy`, `job_manager_cancels.dfy` | what becomes of a job; how calls are answered; what a cancellation reaches |
| `job_manager_healthy.dfy`, `job_manager_closing.dfy` | runs on which nobody interferes and nothing fails; that Shutdown comes back |
| `job_manager_shutdown.dfy`, `job_manager_shutdown_runs.dfy` | what a nil JobManager.Shutdown is worth; a run against each of its conditions |
| `heap.dfy`, `priority_queue.dfy` | container/heap with index back-pointers; the stable priority queue |
| `fifo_queue.dfy` | the resliced and compacted slice queue with its amortised cost |
| `delay_manager.dfy` | the timer pump and its wakeup channel |
| `event_subscriptions.dfy` | who hears an event, read off the runner's log |
| `event_bus.dfy`, `idle_waits.dfy` | two-level posting on one runner; what repeated WaitIdle calls cover |
| `fifo_runner.dfy` | the abstract one-at-a-time FIFO runner that the real runners refine |
| `runs.dfy`, `counting.dfy`, `task_items.dfy` | runs of a machine, sums over threads, queue items |

**Assumptions.** The control and io runners of the JobManager are sequenced runners, used
through the abstract FIFO runner they refine. Start, and with it recovery (`RecoverJob`),
ends before the first SubmitJob and before Shutdown. The pool has at least one worker and,
in `composition.dfy`, is not shutting down. Time is an integer that never goes back;
contexts are flags that never go back; the clock, handler lookups, store outcomes and
select choices are nondeterministic.

**Where the code does not keep what its comments promise**, the code is modelled and the
exact condition proved: FlushAsync says later tasks do not run before the callback, which
holds if and only if maxConcurrency is 1 (`FlushKeepsItsPromiseIff`,
`LaterTaskCanOvertakeFlush`); QueuePolicyDrop blocks instead of dropping
(`OnlyRejectTurnsAway`, `DropCanBlock`); ShutdownGraceful loads two counters one after the
other and has two windows in which it returns nil too early (`NilMeansDoneIff`), both shut
if and only if nothing waits at the call (`EveryNilIsRightIff`); a nil JobManager.Shutdown
can miss a job in four ways: admitted after its count, between LoadAndDelete and Add(1),
recovered without a handler, or with a final write whose attempts all failed or that a
negative MaxRetries never tried (`NilShutdownMeansAllWrittenIff`); the first is excluded
when no SubmitJob is under way as it begins, the third when no recovered write is
(`NilWithoutLateSubmitsIff`); a negative MaxRetries acknowledges jobs that were never written
(`NilMeansScheduledAndRecordedIff`); sequence numbers wrap, and then a later item leaves
first (`PopsKeepPushOrderIff`, `WrapBreaksOrder`, `PopAroundWrap`); a batch that drained the
FIFO queue shares its array with later pushes (`PushesAfterDrain`); unsubscribing the last
of several slots panics midway (`UnsubscribeKeepsAgreementIff`).

## Model

| member | source | states |
|---|---|---|
| TaskScheduler.NoStrandedTask | core/task_scheduler.go:98-145 | In every reachable state, whatever signals were dropped on the full channel, either every queued task is matched by a token, a worker about to pop or a poster that has yet to send, or every sleeping worker has a token; so a queued task beside a sleeper always has somebody about to fetch it. |
| TaskScheduler.NothingLostOrDoubled | core/task_scheduler.go:98-161 | Over any run every task that was pushed is, once, in the queue, in the hands of a worker, ended, or thrown away by Shutdown; what the workers were given is what they hold and what has ended. |
| TaskScheduler.PoolDrains | core/task_scheduler.go:98-145 | From any reachable state, once nobody posts, the pool takes at most a computed number of steps, and it can come to rest only with an empty queue (as long as one worker has not been told to stop). |
| TaskScheduler.InternalRunsAreBounded | core/task_scheduler.go:98-145 | A run of internal steps is no longer than the work that is left: the protocol has no busy loop. |
| TaskScheduler.QuiescentQueueIsEmpty | core/task_scheduler.go:129-145 | A state in which no poster and no worker can move has an empty queue. |
| TaskScheduler.NilMeansDoneIff | core/task_scheduler.go:163-187 | ShutdownGraceful loads metricQueued and then metricActive. When the second load makes it return nil, all work is done if and only if no worker is between the decrement of metricQueued and OnTaskStart, and metricQueued and the pushes not yet counted add up to zero by then. |
| TaskScheduler.NilWithoutLatePostsIff | core/task_scheduler.go:163-187 | When no post was past its shuttingDown check as ShutdownGraceful began, its nil means that all work is done if and only if no worker is between the decrement of metricQueued and OnTaskStart. |
| TaskScheduler.NilWhileATaskIsHeld | pool.go:162-174 | A run in which ShutdownGraceful returns nil while an accepted task has been popped and has not begun. |
| TaskScheduler.NilWhileATaskIsQueued | core/task_scheduler.go:98-187 | A run in which a post that was past its check pushes between the two loads, and ShutdownGraceful returns nil with its task queued. |
| GracefulShutdown.EveryNilIsRightIff | core/task_scheduler.go:163-187 | At the call: on a pool with a live worker every nil that can come of a ShutdownGraceful means that all work is done if and only if, when it begins, the queue is empty, no post is between its check and its push and no worker is between its pop and OnTaskStart. Otherwise some run drives the pool to where only held tasks are left and both loads read 0. |
| SchedulerCalls.OpenPoolTakesEveryCall | core/task_scheduler.go:98-117 | In every reachable state what was accepted is the tasks of the calls past their push, and on a pool that is not shutting down no call of PostInternal has been turned away. |
| SchedulerCalls.OpenPoolFinishesEveryCall | core/task_scheduler.go:98-145 | A pool at rest that nobody is shutting down has finished the task of every call ever made, once: finished is the multiset of the calls' tasks. |
| SchedulerCalls.PoolStopsOnlyWhenTold | core/task_scheduler.go:129-158 | A worker stops only after the context has ended and a task is thrown away only by a clear; once the context has ended a pool at rest has no worker left. |
| SchedulerCalls.CancelledPoolStops | core/task_scheduler.go:138-143 | Whatever follows the end of the workers' context: where the pool comes to rest every worker has stopped. |
| SchedulerCalls.ShutPoolTurnsAway | core/task_scheduler.go:99-105 | Whatever follows the store of shuttingDown: only calls that had seen the pool open get to push. |
| SchedulerCalls.ClearedTasksNeverRun | core/task_scheduler.go:147-158 | What Shutdown clears is discarded for good: whatever is delivered or queued afterwards was delivered before or is pushed later. |
| SchedulerCalls.NilMeansNobodyRuns | core/task_scheduler.go:182-186 | Whatever step makes ShutdownGraceful return nil, no task body is running at that moment. |
| SchedulerCalls.DonePoolLetsItReturn | core/task_scheduler.go:174-188 | With all work done and no push uncounted, a polling ShutdownGraceful can return nil. |
| SequencedRunner.OneTokenOneBody | core/sequenced_task_runner.go:133-139 | runningCount is 0 or 1 and counts the run tokens (CAS winners yet to post, runLoops up to their store of 0, tokens a stopped pool swallowed); the sanity panic never fires and at most one body runs. |
| SequencedRunner.FifoConservation | core/sequenced_task_runner.go:179-216 | Finished bodies, the body in flight and the queue are the pushes in order, less one contiguous block dropped by Shutdown; without Shutdown they are exactly the pushes. |
| SequencedRunner.NoLostWakeup | core/sequenced_task_runner.go:146-160 | A non-empty queue with runningCount 0 always has a poster before its CAS or a runLoop before the end of its recheck; a runner at rest on a live pool has an empty queue and has executed everything not dropped. |
| SequencedRunner.RestedRunnerIsDone | core/sequenced_task_runner.go:218-236 | When no step of posters, loops or pool is possible on a live pool, the executed tasks are the pushes that Shutdown did not drop, in order. |
| SequencedRunner.Refines | core/sequenced_task_runner.go:170-269 | Every atomic step of the lock-free runner is a step of a plain one-at-a-time FIFO runner, or changes nothing of it. |
| SequencedCalls.OpenRunnerTakesEveryCall | core/sequenced_task_runner.go:255-269 | On an open runner no call of PostTask is refused; a call is past its push exactly if it stands in the order of pushes, there once and with its own task. |
| SequencedCalls.EarlierCallGoesFirst | core/sequenced_task_runner.go:255-269 | A call that has pushed when another is made has the smaller place among the pushes in every later state. |
| SequencedCalls.OpenRunnerRunsEveryCall | core/sequenced_task_runner.go:170-269 | An open runner at rest on a live pool has executed the task of every call, once, in the order of their pushes, and every call has returned. |
| SequencedCalls.ClosedRunnerRefuses | core/sequenced_task_runner.go:255-258 | Whatever follows Shutdown's store: a call that gets to push had pushed before or had seen the runner open. |
| SequencedCalls.ClearedQueueIsGone | core/sequenced_task_runner.go:395-408 | Whatever follows Shutdown's fresh queue: what is executed, in flight or queued is what was executed or in flight then and what has been pushed since. |
| Composition.EveryRunnerDrains | core/sequenced_task_runner.go:170-269 | Any number of sequenced runners on one pool that drops signals: when nothing but new posts can happen, the pool queue and every runner queue are empty, each runner has executed, in order, all that its Shutdown did not drop, and an open runner has executed the task of every call, once. |
| Composition.EachPartIsReachable | core/sequenced_task_runner.go:162-237 | Seen alone, the pool of a reachable system is a reachable pool and each runner a reachable runner, so all theorems about them hold of the parts. |
| Composition.PoolFinishesEverything | core/task_scheduler.go:98-145 | When nothing but new posts can happen, the pool has run to its end every runLoop and every other task posted to it, once. |
| Composition.PoolKeepsCarrying | core/task_scheduler.go:98-145 | No step of PostInternal or GetWork loses a runLoop between its post and its worker. |
| Composition.RunnerRests | core/sequenced_task_runner.go:162-237 | In a combined state where only new posts are possible no runner has a step left: every runLoop it posted is over. |
| Composition.InternalRunsAreBounded | core/sequenced_task_runner.go:162-237 | From any state of the combined system, once nobody posts, it takes at most a computed number of steps: a retried CAS, a passed-on runLoop or a token cannot keep it busy for ever. |
| Composition.RunnersDrain | core/sequenced_task_runner.go:170-237 | So every run on which nobody posts ends, and where it can go no further the pool queue and every runner queue are empty. |
| ParallelRunner.ConcurrencyBound | core/parallel_task_runner.go:410-443 | Bodies running <= runningCount <= maxConcurrency in every interleaving of the dispatch loop with concurrent decrements. |
| ParallelRunner.DispatchOrder | core/parallel_task_runner.go:410-443 | Items are dispatched in push order, each at most once; every push that Shutdown did not clear is dispatched, in hand, pending or queued; barriers are dispatched as barriers and nothing else is. |
| ParallelRunner.BarrierDrains | core/parallel_task_runner.go:398-438 | Whenever a WaitIdle or FlushAsync barrier is handed to the pool, by either branch, every item pushed before it and not cleared has been dispatched and its body is over. |
| ParallelRunner.NeverStalls | core/parallel_task_runner.go:385-486 | An open runner with no closure queued or running and every dispatch done posting its completion has an empty queue, no pending barrier, barrierTaskRunning false and runningCount 0. |
| ParallelRunner.BarrierRunsAlone | core/parallel_task_runner.go:374-407 | A barrier dispatched by postBarrierTaskInternal while no other reset closure is outstanding runs alone: nothing else is dispatched, and all earlier bodies are over, on every run until its own reset closure executes. |
| ParallelRunner.GateStaysShutIff | core/parallel_task_runner.go:374-438 | The flag: a dispatched barrier keeps barrierTaskRunning set until its own reset closure on every run if and only if it went through the pending branch with no other reset closure outstanding. |
| ParallelRunner.FlushKeepsItsPromiseIff | core/parallel_task_runner.go:571-617 | The promise: no task posted after a FlushAsync or WaitIdle runs before its callback is over, on every run of a runner made with maxConcurrency max, if and only if max is 1. |
| ParallelRunner.LaterTaskCanOvertakeFlush | core/parallel_task_runner.go:571-617 | For every maxConcurrency from 2 on a run on which a task posted after FlushAsync runs while the callback has not begun: the immediate branch does not set barrierTaskRunning, contrary to the comment. |
| ParallelRunner.ResetBeforeCompletion | core/parallel_task_runner.go:511-519 | While the internal runner is open, a reset closure in its channel has the completion closure of its barrier behind it or still to be enqueued: the order the runner relies on never to stall. |
| ParallelRunner.RunnerDrains | core/parallel_task_runner.go:374-486 | From any reachable state, once nobody posts or shuts down, the runner takes at most a computed number of steps, and on an open runner it can come to rest only with an empty queue and nothing running. |
| ParallelCalls.FillsItsSlots | core/parallel_task_runner.go:409-444 | Work conservation: whenever the goroutine of an open runner is between closures with items queued, and no barrier is pending or dispatched with its completion closure still to run, at least maxConcurrency dispatches have their completion closure still to run. |
| ParallelCalls.PushesFollowSends | core/parallel_task_runner.go:227-236 | The items pushed are the first of those sent to the internal channel, in that order, each a barrier exactly if sent as one; on an open runner all others are in the channel or in hand. |
| ParallelCalls.OpenRunnerRunsEveryItem | core/parallel_task_runner.go:385-486 | An open runner at rest has dispatched every item ever sent, in the order sent, barriers as barriers, and has run each body exactly once. |
| ParallelCalls.ClosedRunnerTakesNothing | core/parallel_task_runner.go:228-230 | Whatever follows Shutdown's store: nothing more is pushed, except by the one closure that was past its check. |
| ParallelCalls.ClearedItemsNeverRun | core/parallel_task_runner.go:538-552 | An item that Shutdown cleared is never dispatched, on any run. |
| JobManagerRuns.OneInstancePerID | job/job_manager.go:252-287 | Of two instances of an ID the older one is settled, so no two are active and no two handlers of an ID overlap; every instance is scheduled at most once and its handler runs at most once. |
| JobManagerRuns.ActiveIffLive | job/job_manager.go:261-341 | An ID is in activeJobs if and only if an instance of it is between admission and finalizeJobControl. |
| JobManagerRuns.FailedAdmissionIsOut | job/job_manager.go:301-327 | An admission whose io step answered with an error is out of activeJobs: whatever holds its ID now is a later instance. |
| JobManagerRuns.StatusMovesForward | job/job_manager.go:365-480 | Of two store writes of an ID the later one belongs to a later instance, or to the same instance and a later status, or retries the same write: RUNNING comes before the terminal status and nothing moves it back. |
| JobManagerRuns.TerminalStays | job/job_manager.go:456-480 | After a terminal write the store shows that status as long as no later instance of the ID has written, for every interleaving, cancellation and store failure. |
| JobManagerRuns.NilMeansScheduledAndRecordedIff | job/job_manager.go:289-341 | A nil SubmitJob admitted exactly one instance, scheduled exactly once; its PENDING record was written if and only if MaxRetries is not negative (retryIOOperation with a negative one returns nil without trying). |
| JobManagerRuns.NothingLeftBehind | job/job_manager.go:252-480 | When only clients and Shutdown can move, every instance is rejected or closed, activeJobs is empty, both runners are idle and pendingFinalize is 0. |
| JobManagerProgress.ManagerDrains | job/job_manager.go:252-480 | From any reachable state, once no client and no Shutdown moves, the three runners together take at most a computed number of steps (retries included), and where they can take none every instance is settled and activeJobs is empty. |
| JobManagerOutcomes.HandlersStatusIsWritten | job/job_manager.go:394-461 | Whatever follows a handler's return: the instance stays past its handler with the status it came back with, and every terminal write of it is that status. |
| JobManagerOutcomes.CancelledStatusIsWritten | job/job_manager.go:375-378 | So it is with CANCELED for an instance whose context has ended when its wrapper checks it. |
| JobManagerOutcomes.CancelledBeforeStartNeverRuns | job/job_manager.go:366-392 | An instance whose context ends before its wrapper's check never runs its handler and is finalized, if at all, as CANCELED. |
| JobManagerOutcomes.CancelledBeforeCheckIsNotScheduled | job/job_manager.go:290-341 | An instance whose context ends before the second check of its io task is never scheduled. |
| JobManagerOutcomes.HandlerRunsUnlessCancelled | job/job_manager.go:366-420 | An instance past its handler has run it exactly once, or not at all with status CANCELED and its context ended. |
| JobManagerCalls.EveryCallIsAnswered | job/job_manager.go:239-287 | Every call of SubmitJob that has posted is answered, or its task waits with the control runner or is at work, so an idle control runner has answered all; SubmitJob returns that answer unless the caller's context has ended. |
| JobManagerCalls.AnswersStay | job/job_manager.go:239-250 | An answer is given once and never changes. |
| JobManagerCalls.ErrorMeansNotScheduled | job/job_manager.go:301-341 | Unless the caller's context has ended, an instance admitted for a call that was answered with an error has been taken back: it was not scheduled and its handler never ran. |
| JobManagerCalls.TurnedAwayAtOnce | job/job_manager.go:261-272 | A call whose ID is active or whose type has no handler gets its error for good, and no instance is ever admitted for it. |
| JobManagerCalls.EndedCallNeverRuns | job/job_manager.go:366-378 | Once a caller's context has ended, the handler of an instance of its call that has yet to pass its wrapper's check never runs, be it admitted already or later. |
| JobManagerCancels.CancelEndsTheContext | job/job_manager.go:422-450 | Once the control task of CancelJob is over, the context of the job that was active under the ID at the call has ended, or its admission was taken back. |
| JobManagerCancels.ShutdownEndsActiveContexts | job/job_manager.go:698-706 | So has, once Shutdown's control task is over, the context of every job active when it was posted. |
| JobManagerCancels.ContextsAreReleased | job/job_manager.go:305-319 | Every job context is released: an instance with its final write posted, or taken back with its io task gone on, has had its cancel function called. |
| JobManagerHealthy.StoreChangesExactlyByWrites | job/job_manager.go:488-565 | The store and its history change by the successful attempts of the io task at hand, each showing that task's status under its job's ID, and in no other way. |
| JobManagerHealthy.UndisturbedJobsRun | job/job_manager.go:366-420 | As long as nobody calls CancelJob or Shutdown and no caller's context ends, every instance past its handler has run it exactly once, however the store behaves. |
| JobManagerHealthy.HealthyJobRunsToItsEnd | job/job_manager.go:195-480 | When nobody interferes, the store answers and the type has a handler, the only call for an ID new to the store is answered with nil, and where the run comes to rest its job has run its handler once and is finalized. |
| JobManagerHealthy.RecoveredJobIsTakenUp | job/job_manager.go:656-680 | Whatever follows a recovery step: a record with a handler is scheduled, and where the run comes to rest it is finalized with its handler run or as CANCELED; one without is never run and has its FAILED write with the io runner. |
| JobManagerClosing.ShutdownIsNotLeftWaiting | job/job_manager.go:698-709 | Once only clients and Shutdown can move, a Shutdown that waits for its control task finds it done and can go on to poll. |
| JobManagerClosing.IdleManagerLetsShutdownReturn | job/job_manager.go:714-730 | With no job active and no final write pending, a polling Shutdown can return nil. |
| JobManagerShutdown.NilShutdownMeansAllWrittenIff | job/job_manager.go:714-730 | Shutdown counts activeJobs and then loads pendingFinalize. When the load makes it return nil, every instance is settled and every terminal status that is due is among the store writes if and only if activeJobs is still empty, finalizeJobControl is not between LoadAndDelete and Add(1), no final write has ended without writing and no FAILED write of a job recovered without a handler is outstanding; and every due status has been written if and only if, beside the last three, no finished instance is still on its way to LoadAndDelete. |
| JobManagerShutdown.NilWithoutLateSubmitsIff | job/job_manager.go:692-733 | When no SubmitJob was between its closed check and its post as Shutdown set the flag, a nil result finds activeJobs empty, and nothing is left if and only if the other three conditions hold; no recovered FAILED write is outstanding then if none was at the call. |
| JobManagerShutdownRuns.NilBeforeALateJobIsWritten | job/job_manager.go:208-242 | A run in which a SubmitJob that passed its closed check is admitted after the count has seen no active job: its handler completes, and Shutdown returns nil before the status is written. |
| JobManagerShutdownRuns.NilBetweenRemovalAndAdd | job/job_manager.go:463-474 | A run in which every submission is over before Shutdown is called and Shutdown returns nil between LoadAndDelete and Add(1), with the COMPLETED status of the job unwritten. |
| JobManagerShutdownRuns.NilAfterAFailedWrite | job/job_manager.go:472-479 | A run in which Shutdown returns nil with every job closed and both runners idle, but the one attempt of the final UpdateStatus has failed and its error was dropped: the store shows the completed job as PENDING. |
| JobManagerShutdownRuns.NilBeforeARecoveredWrite | job/job_manager.go:656-665 | A run with no submission and no active job in which Shutdown returns nil while the FAILED write of a job recovered without a handler, which pendingFinalize does not count, still waits with the io runner. |
| JobManagers.RetryIOOperation | job/job_manager.go:488-557 | The retry loop: at most MaxRetries + 1 calls of fn, each but the last a retriable failure on a live context; nil and already-exists are the last call's result, any other error is that of the last allowed attempt, a negative MaxRetries gives nil without a call. |
| JobManagers.RetriesAsTheEventsDo | job/job_manager.go:488-557 | A call of retryIOOperation makes the attempts that the io events make one by one, stops where they stop, and returns nil, or already-exists, exactly where they go on as after that. |
| JobManagerInvariant.FinalizesItself | job/job_manager.go:463-467 | The instance that finalizeJobControl removes by ID is the instance that asked for it. |
| PriorityQueue.DrainIsStableSort | core/queue.go:176-304 | Popping everything is a stable sort: priorities never rise, each priority comes out in push order, and nothing is lost or invented. |
| PriorityQueue.PopInParts | core/queue.go:273-293 | Popping m and then n items is popping m + n: PopUpTo(k) is k calls of Pop. |
| PriorityQueue.FirstIsHighestAndEarliest | core/queue.go:180-191 | The item that leaves first has the highest priority and is the earliest pushed of that priority. |
| PriorityQueue.LeastIsFirst | core/queue.go:180-191 | An element that Less puts behind no other is the stable choice, as long as sequence numbers follow push order. |
| PriorityQueue.FreshAgrees | core/queue.go:251-255 | Numbers handed out in push order and below the counter put equal priorities in push order: what every push keeps and every Pop relies on. |
| PriorityQueue.PopsKeepPushOrderIff | core/queue.go:180-191 | Pops by least Less keep the push order of equal priorities, however many there are, if and only if sequence numbers follow push order: wherever they disagree some series of Pops takes the later item first. |
| PriorityQueue.PushKeepsPushOrderIff | core/queue.go:238-259 | On a queue that pops in push order a push keeps it so if and only if no queued item of its priority carries its number or a larger one. |
| PriorityQueue.WrapBreaksOrder | core/queue.go:241-249 | Two pushes of one priority around the wrap of the counter, on any queue, make some series of Pops take the later one first. |
| PriorityQueue.PushAroundWrap | core/queue.go:238-259 | The same on the queue itself: with the counter at MaxUint64 and something queued, two pushes get the numbers MaxUint64 and 0. |
| PriorityQueue.PopAroundWrap | core/queue.go:238-271 | Two such pushes above everything queued, and the next Pop returns the later of them. |
| Heaps.RootIsLeast | core/queue.go:176-214 | In a heap-ordered array no slot is smaller than the root. |
| FifoQueue.CompactionPays | core/queue.go:116-136 | A compaction frees at least twice as much capacity as it copies items, and stays within [len, cap]. |
| FifoQueue.CompactionHalves | core/queue.go:116-136 | A compaction keeps at most half the capacity; an empty queue of at least 64 goes back to 16; a capacity that stays is below 64 or at most four times the length. |
| FifoQueue.CompactionsTighten | core/queue.go:116-136 | After any run of operations, repeated compactions bring the capacity below 64 or to at most four times the length. |
| DelayManagers.NeverOversleeps | core/delay_manager.go:109-157 | From calculateNextRun to the select, any task earlier than the computed deadline comes with a wakeup token; once a task is due (by the time it took to arm the timer) the select is ready to return. |
| DelayManagers.OnePlaceNeverEarly | core/delay_manager.go:161-194 | Each delayed task is, once, in the heap, in the collected batch, posted, or discarded by Stop, and is never posted before its RunAt. |
| DelayManagers.NothingPostedAfterQuit | core/delay_manager.go:130-131 | Whatever follows the select's ctx.Done: nothing more is posted, and what was in the heap stays there or is discarded. |
| DelayManagers.EndsOnlyCancelled | core/delay_manager.go:109-141 | The loop ends only once the context is done, and nothing is discarded before it has ended. |
| DelayManagers.LoopSettles | core/delay_manager.go:109-184 | While clock and callers stand still the goroutine comes to rest after a computed number of steps, in the select with every task still to come (by the time it took to arm the timer) or, exactly if the context is done, ended. |
| DelayManagers.AddedIsPostedInTime | core/delay_manager.go:85-184 | Whatever follows an AddDelayedTask: the task is in one place, once; it is posted no earlier than its delay asked for, and has been posted when the goroutine rests in its select with the clock past its time. |
| DelayManagers.StopGetsThrough | core/delay_manager.go:186-194 | From every reachable state whose context is done a run without a tick of the clock ends the goroutine and empties the heap, with every task added either posted or discarded. |
| DelayManagers.StopEndsTheLoop | core/delay_manager.go:186-188 | Whatever follows Stop's cancel: where the goroutine comes to rest it has ended. |
| DelayManagers.StopDiscardsTheHeap | core/delay_manager.go:186-194 | From the select, once the context is done, a run discards the whole heap with nothing more posted. |
| IdleWaits.WaitIdleCoversReposts | core/sequenced_task_runner.go:453-472 | After k back-to-back successful WaitIdle calls every task reachable in fewer than k immediate re-posts from a task posted before the first call has finished. |
| IdleWaits.OneCallMissesARepost | core/sequenced_task_runner.go:453-472 | The bound is sharp: after one successful call a task's own re-post may still be unfinished. |
| EventSubscriptions.HandlersRunInPublishOrder | eventbus/eventbus.go:48-100 | Events are dispatched in publish order and handlers run through their subscriber lists one after the other, on an idle bus all of them; and as long as nothing has panicked the handler of an ID runs for an event exactly once if the ID's Subscribe task stands in the runner's log before the event's dispatch task with no Unsubscribe task of it in between, and never otherwise. |
| EventSubscriptions.DispatchFindsSubscribers | eventbus/eventbus.go:67-78 | As long as nothing has panicked the dispatch task at position p of the runner's log found each ID subscribed to its type as of p, once, and no other. |
| EventSubscriptions.SubscriberHearsLaterEvent | eventbus/eventbus.go:48-79 | Subscribe, then Publish, then rest, without an Unsubscribe of the ID or a panic: the handler has run for the event exactly once. |
| EventSubscriptions.UnsubscribedHandlerStaysSilent | eventbus/eventbus.go:60-100 | Unsubscribe, then Publish, then rest, without a panic: the handler has not run for the event. |
| EventSubscriptions.WaitIdleGetsThrough | eventbus/eventbus.go:102-104 | Once the bus is idle after a call of WaitIdle, its barrier has run, after everything posted before the call. |
| EventBuses.TwoWaitsCoverHandlers | eventbus/eventbus.go:60-104 | When the second of two back-to-back successful WaitIdle calls returns, every event published before the first has been dispatched and all its handlers have run. |
| EventBuses.RegistryAgreesUntilPanic | eventbus/eventbus.go:48-100 | Over any run subs and byID describe the same subscriptions as long as no body of Unsubscribe has panicked. |
| EventBuses.UnsubscribeKeepsAgreementIff | eventbus/eventbus.go:81-100 | From agreeing maps Unsubscribe keeps them in agreement, and does not panic, if and only if the ID is not in the last of several slots. |
| EventBuses.SubscribeKeepsAgreement | eventbus/eventbus.go:52-55 | A fresh subscription keeps subs and byID in agreement. |
| EventBuses.UnsubscribeRemovesOne | eventbus/eventbus.go:81-100 | Unsubscribe takes exactly the one subscriber out of its list and leaves every other list alone, also when its body panics. |
| EventBuses.StaleLocatorRemovesAnother | eventbus/eventbus.go:81-100 | After that panic, a second Unsubscribe of the same ID removes the subscriber that came in between. |
| SingleThreadRunner.RunsInSendOrder | core/single_thread_task_runner.go:364-393 | Executed tasks, the one executing and the channel are the sends in order; one task at a time; the channel never holds more than 100. |
| SingleThreadRunner.Refines | core/single_thread_task_runner.go:157-198 | Every atomic step of the runner is a step of a plain FIFO runner or changes nothing of it. |
| SingleThreadRunner.OnlyRejectTurnsAway | core/single_thread_task_runner.go:167-197 | QueuePolicyDrop does not drop: on an open runner no call is ignored, rejectedCount counts the calls that Reject turned away, and a call of any other policy that faces a full channel with a live context is moved by no event. |
| SingleThreadRunner.DropCanBlock | core/single_thread_task_runner.go:167-174 | A reachable state in which a QueuePolicyDrop call is blocked on a full channel. |
| SingleThreadRunner.QuietRunnerIsDone | core/single_thread_task_runner.go:157-198 | When only clients can move and the context is live, every call is answered, the channel is empty and everything sent has run; on an open runner runs plus rejections are all the calls. |
| SingleThreadCalls.AcceptedCallsRun | core/single_thread_task_runner.go:157-198 | What is sent, and so what runs, is the tasks of the accepted calls, each once; an open runner at rest has run the task of every call but the rejected ones. |
| SingleThreadCalls.PolicyHoldsForLaterCalls | core/single_thread_task_runner.go:162-209 | As long as the policy is not set again, a call that had not read it when SetQueuePolicy set it waits in the select with the policy set and is rejected only if that is Reject. |
| SingleThreadCalls.ClosedRunnerIgnores | core/single_thread_task_runner.go:157-160 | Whatever follows Shutdown's store: a call that had not been past its check is ignored, its task never sent. |
| SingleThreadCalls.NothingRunsAfterExit | core/single_thread_task_runner.go:386-390 | Whatever follows the exit of the loop, nothing runs any more. |
| SingleThreadCalls.RunnerComesToRest | core/single_thread_task_runner.go:157-392 | Once nobody calls, callers and loop take at most a computed number of steps, and a runner whose context has ended rests only with its loop exited and no call in a select. |
| SingleThreadCalls.StopEndsTheLoop | core/single_thread_task_runner.go:348-361 | Whatever follows Stop's cancel: where the runner comes to rest its loop has exited. |
| Heaps.Heap.Swap | core/queue.go:193-197 | Exchanges two slots and their index fields; every index still equals its slot. |
| Heaps.Heap.Up | core/queue.go:257 | container/heap up: from an array ordered except below slot j, restores heap order and keeps the nodes. |
| Heaps.Heap.Down | core/queue.go:269 | container/heap down: from the first n slots ordered except at slot i, restores order there and leaves the rest alone. |
| Heaps.Heap.Push | core/queue.go:199-204 | heap.Push: the node joins the multiset of nodes, order and index fields hold, and index 0 means it is the new root. |
| Heaps.Heap.Pop | core/queue.go:206-214 | heap.Pop: takes out a node that no other is smaller than; order and index fields hold for the rest. |
| PriorityQueue.PriorityTaskQueue.PushWithID | core/queue.go:232-259 | Appends the item in push order; the sequence number is the counter, or 0 when it stood at MaxUint64 on an empty queue; numbers stay fresh unless the counter wraps on a non-empty queue. |
| PriorityQueue.PriorityTaskQueue.Pop | core/queue.go:261-271 | Returns nothing on an empty queue; otherwise removes exactly one item, returns it, and it is one that Less puts behind no other; while numbers follow push order that is the earliest item of the highest priority. |
| PriorityQueue.PriorityTaskQueue.PopUpTo | core/queue.go:273-293 | Returns min(max, len) items: those that many Pops would return, in that order, leaving what they would leave; conserves the items in any case. |
| PriorityQueue.PriorityTaskQueue.PeekTraits | core/queue.go:295-304 | Agrees with the next Pop. |
| PriorityQueue.PriorityTaskQueue.Clear | core/queue.go:323-331 | Empties the queue and restarts the sequence at 0. |
| FifoQueue.FIFOTaskQueue.PushWithID | core/queue.go:53-61 | Appends one item; in place while there is room, otherwise into a larger array chosen by any growth policy, with the capacity gained accounted for. |
| FifoQueue.FIFOTaskQueue.Pop | core/queue.go:63-79 | Returns the front item, zeroes its slot and keeps the rest in order through reslicing and compaction. |
| FifoQueue.FIFOTaskQueue.PopUpTo | core/queue.go:81-108 | Splits the contents into the batch of min(max, len) front items and the rest; draining hands out the backing array itself, otherwise the batch is a copy and its slots are zeroed. |
| FifoQueue.FIFOTaskQueue.MaybeCompactLocked | core/queue.go:116-136 | Leaves the contents and the length alone; the new capacity and the number of copied items are exactly what the cost model charges. |
| FifoQueue.FIFOTaskQueue.MaybeCompact | core/queue.go:110-114 | Compaction on request keeps the contents and is charged as one operation. |
| FifoQueue.FIFOTaskQueue.PeekTraits | core/queue.go:138-145 | The traits of the front item, if any. |
| FifoQueue.FIFOTaskQueue.Clear | core/queue.go:158-163 | Empties the queue into a fresh array. |
| FifoQueue.CopiesArePaidFor | core/queue.go:96-136 | Over any run of any operations twice the items copied by compaction is at most the initial capacity plus all capacity added by append and Clear, for any growth policy. |
| FifoQueue.AnythingAfterBatch | core/queue.go:96-107 | A batch that left items behind keeps its contents whatever calls of the queue follow. |
| FifoQueue.PushesAfterDrain | core/queue.go:90-94 | A batch that drained the queue is overwritten from its front, item by item, by the pushes that follow while the array has room. |
| FifoQueue.PushAfterDrain | core/queue.go:90-94 | So it survives the next push if and only if the pushed item equals its first one. |
| DelayManagers.DelayManager.AddDelayedTask | core/delay_manager.go:85-107 | A negative delay panics and changes nothing; otherwise the task is added at now + delay. |
| DelayManagers.DelayManager.Schedule | core/delay_manager.go:93-106 | The call adds one task at now + delay and is the protocol's add step: nothing else changes. |
| DelayManagers.DelayManager.Enter | core/delay_manager.go:99-106 | The task joins the heap, and a token is in the channel afterwards exactly when one was there or the task is earlier than every other. |
| DelayManagers.DelayManager.PushTask | core/delay_manager.go:24-35 | After heap.Push the item has index 0 if and only if it is earlier than every task that was in the heap: index == 0 identifies the new root. |
| DelayManagers.DelayManager.TimeToNext | core/delay_manager.go:143-157 | Empty, expired now exactly when some task is due, or the time until the earliest task. |
| DelayManagers.DelayManager.CalculateNextRun | core/delay_manager.go:115-124 | The loop collects when the earliest task is due, otherwise heads for a deadline at that task or 1000 hours away. |
| DelayManagers.DelayManager.ResetTimer | core/delay_manager.go:126-127 | The timer is armed with the wait computed before, from the moment it is reset. |
| DelayManagers.DelayManager.AwaitEvent | core/delay_manager.go:129-137 | The select ends the loop on cancellation, takes the token and recalculates, or goes on to collect. |
| DelayManagers.DelayManager.CollectExpired | core/delay_manager.go:164-176 | Takes out exactly the expired tasks in non-decreasing RunAt order; everything left is strictly later. |
| DelayManagers.DelayManager.ProcessExpired | core/delay_manager.go:161-178 | That batch leaves the heap in one lock section and is the loop's to post. |
| DelayManagers.DelayManager.PostNext | core/delay_manager.go:181-183 | The next task of the batch is posted, in order and not before its RunAt. |
| DelayManagers.DelayManager.FinishBatch | core/delay_manager.go:120 | Only a fully posted batch lets the loop recalculate. |
| DelayManagers.DelayManager.CancelContext | core/delay_manager.go:187 | The context ends. |
| DelayManagers.DelayManager.ReplaceHeap | core/delay_manager.go:188-193 | Once the goroutine has ended everything left in the heap is discarded. |
| EventBuses.EventBus.Subscribe | eventbus/eventbus.go:48-58 | Hands out the next ID and posts one subscribe task; nothing else changes. |
| EventBuses.EventBus.Unsubscribe | eventbus/eventbus.go:81-82 | Posts one unsubscribe task; nothing else changes. |
| EventBuses.EventBus.Publish | eventbus/eventbus.go:60-67 | Posts one dispatch task for the event; nothing else changes. |
| EventBuses.EventBus.PostWait | eventbus/eventbus.go:102-104 | WaitIdle posts one barrier task; nothing else changes. |
| EventBuses.EventBus.SubscribeBody | eventbus/eventbus.go:52-55 | Appends the subscriber and records its slot. |
| EventBuses.EventBus.UnsubscribeBody | eventbus/eventbus.go:82-99 | The swap, cut and locator fix on the two maps, with the writes that happen before an index panic and the panic itself. |
| EventBuses.EventBus.BeginNext | eventbus/eventbus.go:52-99 | The runner's next task begins: one whole body, or the snapshot of the subscriber list. |
| EventBuses.EventBus.PostNextHandler | eventbus/eventbus.go:69-76 | Posts the handler task of the next subscriber in the snapshot. |
| EventBuses.EventBus.EndCurrent | eventbus/eventbus.go:67-78 | A body ends only after its loop has posted every handler. |
| TaskScheduler.TaskScheduler.PostInternal | core/task_scheduler.go:99 | A call enters; nothing else changes. |
| TaskScheduler.TaskScheduler.LoadShuttingDown | core/task_scheduler.go:101-105 | The call is rejected exactly when shuttingDown is set. |
| TaskScheduler.TaskScheduler.PushTask | core/task_scheduler.go:107 | The task joins the queue; the caller has yet to count and signal. |
| TaskScheduler.TaskScheduler.CountQueued | core/task_scheduler.go:108 | metricQueued goes up by one, after the push. |
| TaskScheduler.TaskScheduler.TrySignal | core/task_scheduler.go:111-116 | One more token, or none when the channel holds 2 * workerCount. |
| TaskScheduler.TaskScheduler.TryPop | core/task_scheduler.go:132-138 | One queued task moves to the worker, or an empty queue sends the worker to the select. |
| TaskScheduler.TaskScheduler.CountPopped | core/task_scheduler.go:133-135 | metricQueued goes down by one; OnTaskStart is still to come. |
| TaskScheduler.TaskScheduler.OnTaskStart | pool.go:174 | metricActive goes up and the task is running. |
| TaskScheduler.TaskScheduler.OnTaskEnd | pool.go:178-198 | metricActive goes down whether the task returned or panicked; the worker hunts again. |
| TaskScheduler.TaskScheduler.Select | core/task_scheduler.go:138-143 | A waiting worker takes a token and hunts, or stops when its context is done. |
| TaskScheduler.TaskScheduler.MarkShuttingDown | core/task_scheduler.go:147-149 | shuttingDown is set; nothing else changes. |
| TaskScheduler.TaskScheduler.ClearTasks | core/task_scheduler.go:155 | The queue is emptied and its tasks recorded as discarded. |
| TaskScheduler.TaskScheduler.ResetQueued | core/task_scheduler.go:156 | metricQueued is stored as 0, whatever calls are midway. |
| TaskScheduler.TaskScheduler.BeginShutdownGraceful | core/task_scheduler.go:165-167 | shuttingDown is set and the poll begins. |
| TaskScheduler.TaskScheduler.PollQueued | core/task_scheduler.go:184 | A tick goes on to the second load exactly when metricQueued is 0. |
| TaskScheduler.TaskScheduler.PollActive | core/task_scheduler.go:184-185 | nil exactly when metricActive is 0, otherwise the next tick. |
| TaskScheduler.TaskScheduler.PassDeadline | core/task_scheduler.go:176-181 | The poll ends with an error; the queue is yet to be cleared. |
| TaskScheduler.TaskScheduler.CancelWorkers | pool.go:91-93 | The workers' context ends. |
| SequencedRunner.SequencedTaskRunner.PostTask | core/sequenced_task_runner.go:255 | A call enters; nothing else changes. |
| SequencedRunner.SequencedTaskRunner.CheckClosed | core/sequenced_task_runner.go:256-258 | The call is refused exactly when the runner is closed. |
| SequencedRunner.SequencedTaskRunner.PushTask | core/sequenced_task_runner.go:262-265 | The task joins the queue; the CAS is still to come, even if the runner has been closed since. |
| SequencedRunner.SequencedTaskRunner.EnsureRunning | core/sequenced_task_runner.go:136 | The CAS: from 0 the caller holds the token, otherwise it is done. |
| SequencedRunner.SequencedTaskRunner.PostRunLoopFirst | core/sequenced_task_runner.go:137 | The token goes to a new runLoop in the pool, or is lost to a stopped pool. |
| SequencedRunner.SequencedTaskRunner.BeginLoop | core/sequenced_task_runner.go:171-175 | The sanity check passes: the loop goes on to fetch. |
| SequencedRunner.SequencedTaskRunner.FetchTask | core/sequenced_task_runner.go:180-194 | The front task moves to the loop, or an empty queue sends it to the store of 0. |
| SequencedRunner.SequencedTaskRunner.TaskEnds | core/sequenced_task_runner.go:197-216 | The body is over, by return or recovered panic. |
| SequencedRunner.SequencedTaskRunner.CheckMore | core/sequenced_task_runner.go:219-227 | Goes on to post a successor exactly when the queue is not empty. |
| SequencedRunner.SequencedTaskRunner.PassOn | core/sequenced_task_runner.go:230 | The successor takes over the token with runningCount still 1. |
| SequencedRunner.SequencedTaskRunner.GoIdle | core/sequenced_task_runner.go:233 | runningCount is stored as 0; the recheck is still to come. |
| SequencedRunner.SequencedTaskRunner.ScheduleNextIfNeeded | core/sequenced_task_runner.go:147-153 | The second look at the queue decides whether to try the CAS. |
| SequencedRunner.SequencedTaskRunner.EnsureRunningAgain | core/sequenced_task_runner.go:156 | The CAS of the recheck: it wins exactly when runningCount is 0. |
| SequencedRunner.SequencedTaskRunner.PostRunLoopAgain | core/sequenced_task_runner.go:137 | The winner's runLoop enters the pool, or is lost to a stopped pool. |
| SequencedRunner.SequencedTaskRunner.MarkClosedOnce | core/sequenced_task_runner.go:398 | The runner is closed; the queue is untouched. |
| SequencedRunner.SequencedTaskRunner.ReplaceQueue | core/sequenced_task_runner.go:403-405 | Everything queued is dropped as one block. |
| SequencedRunner.SequencedTaskRunner.PoolDrops | core/task_scheduler.go:155 | A stopped pool throws away a runLoop it had queued, and its token with it. |
| ParallelRunner.ParallelTaskRunner.PostTask | core/parallel_task_runner.go:227 | A client's closure enters the internal channel while it has room. |
| ParallelRunner.ParallelTaskRunner.PostBarrier | core/parallel_task_runner.go:505-510 | So does the closure of WaitIdle or FlushAsync. |
| ParallelRunner.ParallelTaskRunner.TakeClosure | core/single_thread_task_runner.go:371-384 | The internal goroutine receives the oldest closure. |
| ParallelRunner.ParallelTaskRunner.CheckClosed | core/parallel_task_runner.go:228-230 | A closed runner makes the closure return without pushing. |
| ParallelRunner.ParallelTaskRunner.Push | core/parallel_task_runner.go:232 | The item joins the queue. |
| ParallelRunner.ParallelTaskRunner.PushWithID | core/parallel_task_runner.go:523 | A barrier joins the queue; its ID is not yet marked. |
| ParallelRunner.ParallelTaskRunner.MarkAsBarrier | core/parallel_task_runner.go:524 | The pushed ID becomes a barrier ID. |
| ParallelRunner.ParallelTaskRunner.LoadBarrierRunning | core/parallel_task_runner.go:393-399 | A running barrier ends the attempt; a pending one comes before the loop. |
| ParallelRunner.ParallelTaskRunner.TryPendingBarrier | core/parallel_task_runner.go:374-407 | With runningCount 0 the pending barrier is unmarked, cleared and the flag set; otherwise nothing changes. |
| ParallelRunner.ParallelTaskRunner.AddRunning | core/parallel_task_runner.go:441 | runningCount goes up by one before the hand-over, for all three ways to dispatch. |
| ParallelRunner.ParallelTaskRunner.LoadRunning | core/parallel_task_runner.go:410 | The loop goes on only below maxConcurrency. |
| ParallelRunner.ParallelTaskRunner.TestEmpty | core/parallel_task_runner.go:411-413 | An empty queue ends the loop. |
| ParallelRunner.ParallelTaskRunner.PopItem | core/parallel_task_runner.go:415-424 | The front item leaves the queue; a barrier is unmarked. |
| ParallelRunner.ParallelTaskRunner.PlaceBarrier | core/parallel_task_runner.go:426-437 | A popped barrier goes out at once when runningCount is 0, otherwise it becomes pending. |
| ParallelRunner.ParallelTaskRunner.HandToPool | core/parallel_task_runner.go:442 | The item is dispatched; only a normal one continues the loop. |
| ParallelRunner.ParallelTaskRunner.StoreBarrierDone | core/parallel_task_runner.go:514-516 | The reset closure clears barrierTaskRunning, whichever barrier posted it. |
| ParallelRunner.ParallelTaskRunner.BodyStarts | core/parallel_task_runner.go:473 | A dispatched body begins. |
| ParallelRunner.ParallelTaskRunner.BodyEnds | core/parallel_task_runner.go:455-474 | A body ends; a barrier still owes its reset closure. |
| ParallelRunner.ParallelTaskRunner.PostReset | core/parallel_task_runner.go:513-517 | The reset closure is enqueued before the decrement; skipped only if the internal runner is closed. |
| ParallelRunner.ParallelTaskRunner.DecrementRunning | core/parallel_task_runner.go:480 | runningCount goes down by one; the completion closure is still to come. |
| ParallelRunner.ParallelTaskRunner.PostCompletion | core/parallel_task_runner.go:483-485 | The completion closure is enqueued; skipped only if the internal runner is closed. |
| ParallelRunner.ParallelTaskRunner.MarkClosed | core/parallel_task_runner.go:547 | The runner is closed. |
| ParallelRunner.ParallelTaskRunner.ClearTasks | core/parallel_task_runner.go:550 | Everything queued is dropped; a pending barrier stays. |
| ParallelRunner.ParallelTaskRunner.CloseInternalRunner | core/parallel_task_runner.go:556 | The internal runner stops taking closures. |
| JobManagerRuns.JobManager.SubmitJob | job/job_manager.go:208-210 | A call on an open manager is past its closed check; it has yet to post. |
| JobManagerRuns.JobManager.PostSubmitTask | job/job_manager.go:239-242 | One submit task is posted to the control runner, even if the manager has been closed since. |
| JobManagerRuns.JobManager.MarkClosed | job/job_manager.go:693-695 | closed is set; nothing else changes. |
| JobManagerRuns.JobManager.PostCancelTask | job/job_manager.go:698-706 | Shutdown's control task is posted. |
| JobManagerRuns.JobManager.AwaitCancelTask | job/job_manager.go:708-709 | The poll begins once that task is over. |
| JobManagerRuns.JobManager.StartCount | job/job_manager.go:581-584 | The Range begins with the keys there are. |
| JobManagerRuns.JobManager.CountKey | job/job_manager.go:584-587 | A key is visited: it counts if it is still in activeJobs; a key added meanwhile may be visited too. |
| JobManagerRuns.JobManager.FinishCount | job/job_manager.go:588 | With every key visited, a count of 0 goes on to the load and any other to the next tick. |
| JobManagerRuns.JobManager.PollPending | job/job_manager.go:723-729 | nil exactly when pendingFinalize is 0, otherwise the next tick. |
| JobManagerRuns.JobManager.GiveUpShutdown | job/job_manager.go:710-721 | An ended context makes Shutdown return its error. |
| JobManagerRuns.JobManager.StartCancelAll | job/job_manager.go:700 | The control task's Range begins. |
| JobManagerRuns.JobManager.CancelKey | job/job_manager.go:701-703 | The context of one active job ends. |
| JobManagerRuns.JobManager.FinishCancelAll | job/job_manager.go:705 | doneChan is closed once every key has been visited. |
| JobManagerRuns.JobManager.CancelJob | job/job_manager.go:428-430 | One cancel task is posted to the control runner. |
| JobManagerRuns.JobManager.ReceiveReply | job/job_manager.go:244-246 | The caller takes the reply of its control task, once. |
| JobManagerRuns.JobManager.AbandonCall | job/job_manager.go:247-248 | A caller whose context is done returns an error without a reply. |
| JobManagerRuns.JobManager.Recover | job/job_manager.go:656-680 | A recovered record becomes an active, scheduled instance, or without a handler only a posted FAILED write. |
| JobManagerRuns.JobManager.EndCallerContext | job/job_manager.go:247 | The context of one call ends; nothing else changes. |
| JobManagerRuns.JobManager.BeginControl | core/sequenced_task_runner.go:180-194 | The control runner begins its oldest waiting task. |
| JobManagerRuns.JobManager.EndControl | core/sequenced_task_runner.go:197-216 | Its task is over; the next may begin. |
| JobManagerRuns.JobManager.BeginIo | core/sequenced_task_runner.go:180-194 | The io runner begins its oldest waiting task. |
| JobManagerRuns.JobManager.EndIo | core/sequenced_task_runner.go:197-216 | Its task is over; the next may begin. |
| JobManagerRuns.JobManager.CheckDuplicate | job/job_manager.go:264-266 | An ID in activeJobs fails the call. |
| JobManagerRuns.JobManager.LoadHandler | job/job_manager.go:269-272 | A missing handler fails the call before anything is added. |
| JobManagerRuns.JobManager.StoreActive | job/job_manager.go:277-283 | The new instance is in activeJobs under its ID. |
| JobManagerRuns.JobManager.PostPersist | job/job_manager.go:301 | Its persist task is with the io runner. |
| JobManagerRuns.JobManager.AwaitPersist | job/job_manager.go:335-340 | The control task answers with the io reply, or with an error once the context is done. |
| JobManagerRuns.JobManager.LoadForCancel | job/job_manager.go:441-444 | Finds the active instance, if any. |
| JobManagerRuns.JobManager.CallCancel | job/job_manager.go:447 | Its context ends; nothing else changes. |
| JobManagerRuns.JobManager.LoadAndDelete | job/job_manager.go:464-467 | The instance leaves activeJobs; its final write is not yet posted. |
| JobManagerRuns.JobManager.CancelFinished | job/job_manager.go:470 | Its context ends. |
| JobManagerRuns.JobManager.AddPending | job/job_manager.go:472 | pendingFinalize goes up by one. |
| JobManagerRuns.JobManager.PostFinalWrite | job/job_manager.go:473 | The final write is with the io runner. |
| JobManagerRuns.JobManager.CheckBeforePersist | job/job_manager.go:302 | An ended context takes the admission back before any write. |
| JobManagerRuns.JobManager.CheckAfterPersist | job/job_manager.go:322 | An ended context takes the admission back after the write, leaving the record. |
| JobManagerRuns.JobManager.GetLegacy | job/job_manager.go:354-358 | A store without CreateJob: an unfinished record means already exists. |
| JobManagerRuns.JobManager.AttemptWrite | job/job_manager.go:505 | A successful attempt writes the status; a failing one may have written too. |
| JobManagerRuns.JobManager.CreateRecord | job/job_manager.go:344-348 | One attempt: success or no attempt goes on, a retriable failure tries again up to MaxRetries, anything else takes the admission back. |
| JobManagerRuns.JobManager.ScheduleExecution | job/job_manager.go:331 | The instance is scheduled once and will be answered nil. |
| JobManagerRuns.JobManager.DeleteActive | job/job_manager.go:311 | The failed admission is out of activeJobs. |
| JobManagerRuns.JobManager.AnswerSubmit | job/job_manager.go:312-319 | The context is cancelled and the error sent, or the nil is sent. |
| JobManagerRuns.JobManager.UpdateRunning | job/job_manager.go:559-565 | One attempt of the RUNNING update under the job's context. |
| JobManagerRuns.JobManager.UpdateFinal | job/job_manager.go:475-478 | One attempt of the final update under a background context. |
| JobManagerRuns.JobManager.RemovePending | job/job_manager.go:474 | pendingFinalize goes down when the write's attempts are over, however they ended. |
| JobManagerRuns.JobManager.CheckBeforeExecution | job/job_manager.go:375-378 | A cancelled instance skips its handler and reports CANCELED. |
| JobManagerRuns.JobManager.AnnounceRunning | job/job_manager.go:381-392 | The RUNNING update is posted before the handler runs. |
| JobManagerRuns.JobManager.HandlerReturns | job/job_manager.go:395-405 | nil is COMPLETED; an error or panic is CANCELED when the context is done, FAILED otherwise. |
| JobManagerRuns.JobManager.PostFinalize | job/job_manager.go:456-461 | finalizeJobControl for the reported status is posted to the control runner. |
| SingleThreadRunner.SingleThreadTaskRunner.EnqueueTask | core/single_thread_task_runner.go:157 | A call enters; nothing else changes. |
| SingleThreadRunner.SingleThreadTaskRunner.LoadClosed | core/single_thread_task_runner.go:158-160 | The call is ignored exactly when the runner is closed. |
| SingleThreadRunner.SingleThreadTaskRunner.ReadPolicy | core/single_thread_task_runner.go:162-165 | The call keeps the policy it read. |
| SingleThreadRunner.SingleThreadTaskRunner.Select | core/single_thread_task_runner.go:167-197 | The select of any policy: the task is sent while there is room, the call ends when the context is done, and only Reject on a full channel rejects and counts. |
| SingleThreadRunner.SingleThreadTaskRunner.RunLoopSelect | core/single_thread_task_runner.go:372-391 | The loop receives the oldest task, or exits when the context is done. |
| SingleThreadRunner.SingleThreadTaskRunner.TaskEnds | core/single_thread_task_runner.go:377-383 | executingCount is back to 0 whether the task returned or panicked. |
| SingleThreadRunner.SingleThreadTaskRunner.SetQueuePolicy | core/single_thread_task_runner.go:205-209 | Only later calls see the new policy. |
| SingleThreadRunner.SingleThreadTaskRunner.Shutdown | core/single_thread_task_runner.go:333-340 | The runner is closed; queued tasks still run. |
| SingleThreadRunner.SingleThreadTaskRunner.CancelContext | core/single_thread_task_runner.go:357 | The context ends. |

## Left out

- Metrics beyond the counters that decide something, panic handlers, loggers, stats, names and metadata: a panic is a body that ends early while the deferred steps still run.
- The SQLite store, serializers, ListJobs and GetJob, the Prometheus exporter and examples: the store is a map whose operations may fail before or after writing.
- Task-and-reply wrappers, repeating tasks, SubmitDelayedJob's delay, getters and constructors: they add no new interleaving.
- Registering and removing handlers: whether a handler is found is a free choice of the step that looks it up.
- The early context check of SubmitJob and the closed check of CancelJob: a call that fails there changes nothing, so the model keeps only the calls that get past them.
- What follows a nil JobManager.Shutdown: it may also shut its three runners down, which drops what they have queued; the theorems speak of the moment of the nil result.
- Recovery's listing and its RUNNING to FAILED writes: they happen before anything else, so any initial store stands for what they leave; each recovered record is one step of the control runner.
- Start overlapping SubmitJob or Shutdown: control and io can then wait for each other; the model assumes Start has ended.
- EventBus.Close, and publishing after it.
- PopUpTo with a negative max, which panics in Go: max is a natural number.
- Composition: a worker may return from runLoop before its own PostInternal call has finished; this allows more interleavings than the code has.
- TaskScheduler: the queue discipline is left open (any queued position may be popped), so the results hold for both queues; the order itself is proved in the queue files.
- Fairness: the theorems say what holds when nothing more can happen and that for the pool, the sequenced runners on it, the parallel runner and the JobManager this comes after a bounded number of steps; they do not say that the Go scheduler runs every goroutine.
- 32-bit wrap-around of runningCount, metricQueued and the other counters: they are unbounded integers (runningCount of the runners is proved to stay between 0 and its bound).
- RegistryAgreesUntilPanic: says nothing about the two maps after a panic, because later calls may bring them back together.
