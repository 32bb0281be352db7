# Edge runtime: worker pool and the protocols around it

The edge runtime serves functions of many projects from a pool of worker threads. JavaScript is
single-threaded, so each event handler is atomic up to its next `await`. The model follows that: a state,
the handlers as functions on it, and runs over any sequence of events. Where the source changes fields step
by step, a class beside the model does the same in place, and each of its methods is proved to have exactly
the effect that the model gives the handler; what is proved of runs therefore holds of the object.

- **Worker pool** (`PoolModel`, `WorkerPool`): idle, active, parked, retired and tainted workers; one queue
  per project in a rotation; growth and shrinking; generations, preheats and admission. `PoolQueue`,
  `PoolFleet`, `PoolSteps`, `PoolHandlers`, `PoolPreheat` and `PoolRuns` prove that every handler keeps one
  invariant; `PoolTheorems` draws the promises from it. `PoolDecisions`, `PoolArrivals`, `PoolGenerations`,
  `PoolReturns` and `PoolReserves` say what each decision is: who is served, started, queued or refused, who is
  reserved or makes room, and who may not work any more. `PoolExamples` is one run in which the pool does less than it could.
- **Execution lifecycle** (`ExecutionModel`, `Execution`): the flags, timers and closures of one `execute`
  under cancel, timeout, worker failure, messages and stream events in any order.
- **Worker slot** (`SlotModel`): pool side, worker side and both message channels across many executions.
- **Pool and slots together** (`PoolUses`, `RuntimeSystem`, `RuntimePromises`, `RuntimeExamples`): the pool begins
  work on the slots, and what happens in a slot hands its worker back to the pool; single, bulk and release preheats
  reserve workers and hand them back. What each of the two models assumes of the other is proved.
- **Body transfer** (`TransferModel`, `TransferProofs`, `TransferTheorems`, `BodyTransfer`, `BodyBuffers`):
  the credit protocol between the producer in the worker and the receiver in the pool, with exact bytes; the
  probe for small bodies; the budgets and their leases; the reading of bounded request bodies into pages.
- **Activation fence** (`ActivationModel`, `ActivationProofs`, `ActivationAnswers`, `ActivationRaces`,
  `ActivationExamples`, `RuntimeActivations`): preheats, publications by another process, and begins, commits and aborts that read
  the manifest in one step and go on in another.
- **Environment cache** (`TenantEnvModel`, `TenantEnv`).
- **Memory-pressure monitor** (`MemoryPressureModel`, `MemoryPressure`) and the pool it drives
  (`MonitoredPool`).
- **Workspace cycle check** (`CycleCheck`).

Choices that run through the model: workers are numbered by creation; `Map` and `Set` insertion order is a
sequence; promises and `resolve` calls are logs and counters; timers are armed flags that may fire at any
time; the thrown "different project" and "missing metadata" errors are fault flags, proved never set, except
where a release preheat goes on to its next function, which `RuntimeSystem` models as the rejection it is. A
request that fails before its first `await` is an event parameter, so the recursion of `schedule` is real.
`churn` is the sum of the two counters that the recycling budget adds up.

Some laws that the code is meant to keep are false of it; each has a run that breaks it and its exact condition.

**A clean end means a whole body.** The producer posts the text of a failed read and the receiver tests that text
for being non-empty (`response-buffer.ts:109`). A stream that fails with an empty text ends cleanly at the
receiver (`TransferTheorems.SilentFailureHappens`). `CleanMeansComplete` and `NothingLost` say that this is the one
way to lose bytes unnoticed; `TextsMakeCleanComplete` is what remains of the promise.

**Every execution answers.** The catch clause of the worker takes the text of what was thrown before it posts the
reply; if that throws in turn, the completion still follows (`worker-executor.ts:939-966`), and nobody answers the
caller (`SlotModel.UnansweredHappens`). `AnsweredIfSpoken` and `StartedIsConcluded` say exactly which executions are
answered, `AnsweredExactlyOnce` and `StartedIsAnsweredOnce` what holds if every thrown value has a text.

**A worker that comes back is at rest.** A release preheats one function after the other on the same workers. If a
worker that has succeeded with one function is lost before the next begins, `assignWorkerProject` throws outside the
`try` (`worker-pool.ts:1809-1810`), and all workers are handed back at once, while the others are preparing the next
function. A preheat then starts on a worker that is idle or executing (`RuntimeExamples.IdleWorkerAtWork`,
`SlotModel.FreeSlotAtWork`, `MessagesGoAstray`). `SlotModel.HandBackExactly` and `RuntimePromises.NextMemberExactly`
say when a hand-back does this; the promises about slots hold in every run without such a hand-back, and
`UndisturbedIsCalm` says what a run needs for that.

**A queue grows the pool.** Growth is looked for when a request arrives and when a retired worker exits, and then
for one worker at a time. A retired worker that is terminated after its grace period is forgotten before it exits
(`worker-pool.ts:1378-1386`), so requests may stay queued beside free room (`PoolExamples.RoomBesideTheQueue`).
`PoolArrivals.ArrivalFillsThePool` and `RoomForTwo` say exactly when that can be so after an arrival.

**A fence is lifted only by its own decision.** Begin, commit and abort await the manifest
(`trusted-function-files.ts:256-265` goes on awaiting after the bytes are read); commit and abort look the
fence up before that and delete by key afterwards. So a decision can lift a fence it never looked at
(`ActivationRaces.StaleDecision`), it can lift the fence of a candidate that was published after its read
(`ActivationExamples.AbortRaceHappens`, `StaleCommitHappens`), and a begin can fence a candidate that was
published after its read (`LateBeginHappens`). When each happens is proved exactly (`ForeignLiftHistory`,
`RaceExactly`, `LateBeginExactly`), and so is that an order of calls rules the first two out: one decision at a
time on a key, and no publication of a candidate that is being aborted (`OrderlyDecisionsAreTheirOwn`,
`ManagedFencesHold`). The management side keeps to it under its lock per function
(`edge-function.service.ts:2737-2775`) as long as no answer is lost; it repeats a call that gave none
(lines 2610-2632), and then the first one may still be under way.

## Model

| member | source | states |
|---|---|---|
| PoolTheorems.WorkConservation | packages/edge-runtime/worker-pool.ts:680-745 | after any run of events, no worker is idle while a request is queued |
| PoolTheorems.PoolShape | packages/edge-runtime/worker-pool.ts:842-907 | active, parked and retired workers are disjoint lists without repeats, idle ones are active; size <= active (unless draining) <= maxConcurrentExecutions; parked stays within maxWorkers - maxConcurrentExecutions |
| PoolTheorems.ProjectIsolation | packages/edge-runtime/worker-pool.ts:791-829 | all requests ever started on one worker belong to one project, and the "different project" error is never reached |
| PoolTheorems.BindingIsFinal | packages/edge-runtime/worker-pool.ts:806-813 | once written, the project of a worker is the same in every later state that still knows the worker |
| PoolTheorems.ArrivalOrder | packages/edge-runtime/worker-pool.ts:680-745 | requests of a project start in arrival order, and everything started is older than everything of that project still queued, although `enqueue` can bypass the queue |
| PoolTheorems.QueueConsistent | packages/edge-runtime/worker-pool.ts:909-978 | the rotation lists exactly the projects with a queue, each once; no queue is empty; the count is the total |
| PoolTheorems.NoRequestIsLost | packages/edge-runtime/worker-pool.ts:680-745 | the queued requests are exactly those not decided; a request is in the start log if and only if its fate is started |
| PoolTheorems.FateIsFinal | packages/edge-runtime/worker-pool.ts:2140-2162 | a request that has been started or answered keeps that fate for ever |
| PoolTheorems.BoundedBypass | packages/edge-runtime/worker-pool.ts:1275-1321 | position plus number of decisions that passed a project over while it had no worker never exceeds its position when it joined the rotation |
| PoolTheorems.NeverMovesBack | packages/edge-runtime/worker-pool.ts:909-978 | between any two moments, a project of which one request waits at both and none was started in between has not moved back in the rotation, whatever events there were |
| PoolTheorems.StepNoBack | packages/edge-runtime/worker-pool.ts:909-978 | no event moves a project with a waiting request back in the rotation without starting a request of it |
| PoolTheorems.DecisionAdvances | packages/edge-runtime/worker-pool.ts:1275-1321 | a scheduling decision taken while a project waits without a worker starts its oldest request or moves it one place forward; if the retirement fail-safe stops the pool meanwhile, all its requests are answered |
| PoolTheorems.SurplusIsTimed | packages/edge-runtime/worker-pool.ts:1243-1292 | while more than `size` workers are active, every idle one has an armed surplus timer, and never fewer than `size` are active |
| PoolTheorems.BurstShrinks | packages/edge-runtime/worker-pool.ts:1263-1273 | once all workers are idle and nothing is queued, the surplus timers, in whatever order they fire, leave exactly `size` active workers, unless the retired ones and the surplus together exceed `maxRetired`: then and only then the fail-safe stops the pool |
| PoolTheorems.BlockedPoolIsQuiet | packages/edge-runtime/worker-pool.ts:1483-1505 | blocked and recovering exclude each other; a blocked pool has nothing queued and nobody parked, and nobody is ever parked when parking is disabled |
| PoolDecisions.OwnProjectFirst | packages/edge-runtime/worker-pool.ts:1293-1320 | a worker that comes back untainted, while every other queued project has a worker of its own, takes the oldest request of its own project if there is one; the workers parked, active and ever created stay as they are |
| PoolDecisions.FirstInRotation | packages/edge-runtime/worker-pool.ts:1293-1320 | an unbound worker takes the oldest request of the first project of the rotation if none is without a worker |
| PoolDecisions.AcceptedServes | packages/edge-runtime/worker-pool.ts:1293-1320 | a pass starts the oldest request of the project that is next (the first one without a worker, else the worker's own, else the first) on this very worker if that may run it |
| PoolDecisions.ExchangedServes | packages/edge-runtime/worker-pool.ts:1311-1320 | otherwise it starts that request on a worker that takes over the slot: a parked one of the project that is untainted and of the present generation if there is one, a new one only if there is none; or the fail-safe stops the pool |
| PoolDecisions.SwitchParks | packages/edge-runtime/worker-pool.ts:889-907 | in an exchange the worker is parked behind all others, unless nobody may be parked, and exactly the oldest leave that are too many |
| PoolDecisions.FinishServes | packages/edge-runtime/worker-pool.ts:1219-1235 | over every run: the first request started when a worker comes back untainted is the oldest one of the project that is next, on this worker if it may run it |
| PoolArrivals.ArrivalDecided | packages/edge-runtime/worker-pool.ts:628-742 | over every run: an arriving request is answered unstarted exactly if the pool drains, is blocked, is recovering with work in hand or has a full queue, and then nothing else changes, or if the fail-safe stops the pool before the request is started |
| PoolArrivals.ArrivalIsStarted | packages/edge-runtime/worker-pool.ts:815-829 | a request that is taken while an untainted idle worker accepts it starts at once on such a worker, one of its own project if there is any, and of these the one that became idle last |
| PoolArrivals.ArrivalIsQueued | packages/edge-runtime/worker-pool.ts:909-919 | a request that is taken while there is none has been started at the end of the event or waits as the last of its project, unless the fail-safe has stopped the pool |
| PoolArrivals.ArrivalGrowsExactly | packages/edge-runtime/worker-pool.ts:842-853 | with no worker idle, an arrival makes the pool one worker larger exactly if it is taken, the pool is open and there is room under all bounds |
| PoolArrivals.ExitGrowsExactly | packages/edge-runtime/worker-pool.ts:1388-1397 | so does the exit of a retired worker while requests are queued |
| PoolArrivals.ArrivalFillsThePool | packages/edge-runtime/worker-pool.ts:842-853 | if nothing was queued before an arrival, or there was no room, whatever is queued after it in an open pool finds no room |
| PoolArrivals.RoomForTwo | packages/edge-runtime/worker-pool.ts:842-853 | otherwise there is room after it exactly if there was room for two |
| PoolExamples.RoomBesideTheQueue | packages/edge-runtime/worker-pool.ts:1378-1404 | a run: the grace period of two retired workers ends while two requests are queued, nothing grows the pool, the next arrival grows it by one worker, and two requests stay queued beside free room |
| PoolGenerations.StartsAreFit | packages/edge-runtime/worker-pool.ts:1640-1677 | over every run: each untainted worker, active or parked, is of the present generation, and every request was started on a worker that was untainted and of the generation of that moment |
| PoolGenerations.RotationRenews | packages/edge-runtime/worker-pool.ts:1654-1677 | a rotation advances the generation, and every worker that is idle or parked after it is new |
| PoolGenerations.RotationBansAll | packages/edge-runtime/worker-pool.ts:1967-2018 | from a rotating bulk preheat on, no request is ever started on any worker there was before it |
| PoolGenerations.InvalidatedStartNothing | packages/edge-runtime/worker-pool.ts:1597-1638 | once a project is invalidated, no request is ever started on a worker that was bound to it |
| PoolGenerations.StepWatched | packages/edge-runtime/worker-pool.ts:680-745 | every event keeps generations, taints and bans |
| PoolReturns.TaintedIsRetired | packages/edge-runtime/worker-pool.ts:1219-1235 | a worker that comes back tainted or over its memory budget leaves the pool for good |
| PoolReturns.SurplusReturns | packages/edge-runtime/worker-pool.ts:1275-1292 | an untainted worker that comes back to a surplus pool with nothing queued is retired without a replacement if the pool is closed or recovering, and otherwise stays idle with a timer |
| PoolReturns.Departures | packages/edge-runtime/worker-pool.ts:1323-1404 | a lost or exited worker is gone for good; a parked one whose time is up is not parked any more; a pool told to drain does |
| PoolReturns.UnacknowledgedStartNothing | packages/edge-runtime/worker-pool.ts:1513-1595 | a busy worker that did not acknowledge an invalidation starts nothing any more |
| PoolReturns.PreheatTakesOne | packages/edge-runtime/worker-pool.ts:1830-1853 | a single preheat takes exactly one worker at hand out of the idle list of an open pool and binds it to its project; without one it changes nothing |
| PoolReturns.ClosedPoolIsSmall | packages/edge-runtime/worker-pool.ts:1483-1505 | while admission is blocked no worker is idle beyond the warm size |
| PoolReserves.PreheatTakesExactly | packages/edge-runtime/worker-pool.ts:1999-2029 | over every run: a bulk preheat takes all idle workers that fit, with strangers exchanged for those that are missing, up to its limit, or up to the number of idle workers if it has none |
| PoolReserves.InvalidatedIsDropped | packages/edge-runtime/worker-pool.ts:966-978 | over every run: an invalidation answers every waiting request of its project and touches no other list |
| PoolRuns.InitialInv | packages/edge-runtime/worker-pool.ts:539-579 | a new pool satisfies the whole invariant |
| PoolRuns.StepReachable | packages/edge-runtime/worker-pool.ts:680-745 | every event keeps the whole invariant, rebinds no worker and reverses no fate |
| PoolRuns.RunReachable | packages/edge-runtime/worker-pool.ts:680-745 | so does every run |
| PoolRuns.SetAdmissionInv | packages/edge-runtime/worker-pool.ts:1483-1505 | a change of admission keeps the invariant and sets exactly the requested flags, recovering never beside blocked |
| PoolModel.ScheduleStepProgress | packages/edge-runtime/worker-pool.ts:1275-1321 | `schedule` ends: each further pass has fewer queued requests, or an untainted replacement in place of a tainted worker |
| PoolSteps.ScheduleStepInv | packages/edge-runtime/worker-pool.ts:1275-1321 | one pass of `schedule` keeps the invariant and leaves a worker idle only when nothing is queued |
| PoolSteps.SwitchInv | packages/edge-runtime/worker-pool.ts:889-907 | switching a slot parks one worker and puts one of the wanted project in its place, within all bounds, so the number of active workers is unchanged |
| PoolSteps.RetireStepInv | packages/edge-runtime/worker-pool.ts:1323-1355 | retiring a worker keeps the invariant; its replacement is active and not idle |
| PoolSteps.DiscardInv | packages/edge-runtime/worker-pool.ts:1323-1340 | a retired worker leaves every list; the retirement fail-safe empties the queue |
| PoolHandlers.DispatchInv | packages/edge-runtime/worker-pool.ts:628-745 | an arriving request is started, queued or refused without breaking any part of the invariant |
| PoolHandlers.IdleAffinity | packages/edge-runtime/worker-pool.ts:815-829 | an arriving request gets an untainted idle worker that accepts it, one of its own project if there is any, of several the one that became idle last, and none only if none accepts it |
| PoolHandlers.EnsureCapacityInv | packages/edge-runtime/worker-pool.ts:831-853 | growth and the rescheduling of idle workers keep the invariant and leave no work beside an idle worker |
| PoolHandlers.OnExitInv | packages/edge-runtime/worker-pool.ts:1388-1404 | the unexpected exit of a worker keeps the invariant and refills its slot |
| PoolHandlers.RecycleInv | packages/edge-runtime/worker-pool.ts:1219-1235 | a worker handed back is retired if tainted and rescheduled otherwise, keeping the invariant |
| PoolHandlers.SurplusTimerInv | packages/edge-runtime/worker-pool.ts:1263-1273 | a firing surplus timer keeps the invariant |
| PoolHandlers.CancelInv | packages/edge-runtime/worker-pool.ts:2119-2162 | cancelling a queued request keeps the invariant |
| PoolHandlers.InvalidateInv | packages/edge-runtime/worker-pool.ts:966-978 | invalidating a project answers its queued requests and taints its workers, keeping the invariant |
| PoolPreheat.RotateInv | packages/edge-runtime/worker-pool.ts:1640-1677 | a generation rotation keeps the invariant |
| PoolPreheat.PreheatInv | packages/edge-runtime/worker-pool.ts:1830-1853 | a single preheat keeps the invariant and binds only a worker that accepts the project |
| PoolPreheat.BulkPreheatInv | packages/edge-runtime/worker-pool.ts:1967-2029 | a bulk preheat, with its exchange of mismatched idle workers, keeps the invariant |
| PoolPreheat.PreheatTakesFitting | packages/edge-runtime/worker-pool.ts:1999-2029 | a bulk preheat takes distinct untainted active workers, binds them all to its project, and takes as many as wanted or leaves no fitting idle worker behind |
| PoolQueue.AdvanceBounded | packages/edge-runtime/worker-pool.ts:944-964 | whoever a decision passes over comes one place forward for each time it is passed over |
| PoolQueue.ServeGood | packages/edge-runtime/worker-pool.ts:944-964 | serving the oldest request of a project keeps queue shape, accounting, order and bounds |
| PoolQueue.CancelQueuedGood | packages/edge-runtime/worker-pool.ts:2140-2162 | removing a queued request keeps queue shape, accounting, order and bounds |
| WorkerPools.WorkerPool.constructor | packages/edge-runtime/worker-pool.ts:539-579 | a new pool is the model's initial state |
| WorkerPools.WorkerPool.CreateWorker | packages/edge-runtime/worker-pool.ts:581-616 | a new worker is unbound, untainted and of the current generation |
| WorkerPools.WorkerPool.AssignWorkerProject | packages/edge-runtime/worker-pool.ts:806-813 | binds an unbound worker; a worker of another project is a fault |
| WorkerPools.WorkerPool.StopDispatching | packages/edge-runtime/worker-pool.ts:1468-1481 | drains: every queued request is answered |
| WorkerPools.WorkerPool.EnqueueQueued | packages/edge-runtime/worker-pool.ts:909-919 | appends to the project's queue; a new project joins the rotation at its end |
| WorkerPools.WorkerPool.DequeueQueuedForWorker | packages/edge-runtime/worker-pool.ts:944-964 | takes the oldest request of the worker's project and moves the project behind all others |
| WorkerPools.WorkerPool.CancelQueued | packages/edge-runtime/worker-pool.ts:2140-2162 | removes exactly the given request if it is queued |
| WorkerPools.WorkerPool.InvalidateQueuedProject | packages/edge-runtime/worker-pool.ts:966-978 | answers all queued requests of one project and reports how many |
| WorkerPools.WorkerPool.InvalidateProject | packages/edge-runtime/worker-pool.ts:1597-1638 | clears the project's queue, reporting how many requests it answered, and taints its workers |
| WorkerPools.WorkerPool.RetireWorker | packages/edge-runtime/worker-pool.ts:1323-1355 | removes the worker, and replaces and reschedules its slot if asked to |
| WorkerPools.WorkerPool.RetireSurplusWorker | packages/edge-runtime/worker-pool.ts:1257-1261 | removes a surplus worker without replacement |
| WorkerPools.WorkerPool.EvictParkedWorker | packages/edge-runtime/worker-pool.ts:883-887 | retires a worker only if it is parked |
| WorkerPools.WorkerPool.ParkWorker | packages/edge-runtime/worker-pool.ts:856-873 | parks a worker, or evicts it at once when recovering or when parking is disabled |
| WorkerPools.WorkerPool.SwitchProjectSlot | packages/edge-runtime/worker-pool.ts:889-907 | parks the worker, keeps the parked bound by evicting the oldest, and fills the slot with a cached or new worker |
| WorkerPools.WorkerPool.TargetProject | packages/edge-runtime/worker-pool.ts:1293-1308 | the loop finds the first queued project without a worker, else the worker's own, else the first |
| WorkerPools.WorkerPool.Schedule | packages/edge-runtime/worker-pool.ts:1275-1321 | the recursive scheduling of a worker, proved to end |
| WorkerPools.WorkerPool.Execute | packages/edge-runtime/worker-pool.ts:980-1040 | the start of an execution, which may hand its worker back at once |
| WorkerPools.WorkerPool.Recycle | packages/edge-runtime/worker-pool.ts:1219-1235 | retires a tainted worker, schedules any other that is still active |
| WorkerPools.WorkerPool.EnsureWorkerForQueuedProject | packages/edge-runtime/worker-pool.ts:831-840 | reschedules idle workers while anything is queued |
| WorkerPools.WorkerPool.EnsureCapacityForQueuedWork | packages/edge-runtime/worker-pool.ts:842-853 | grows by one worker if work is left and the bound allows |
| WorkerPools.WorkerPool.TakeIdleWorker | packages/edge-runtime/worker-pool.ts:815-829 | takes the idle worker that fits the project best |
| WorkerPools.WorkerPool.Dispatch | packages/edge-runtime/worker-pool.ts:628-745 | refuses, starts or queues a request |
| WorkerPools.WorkerPool.OnWorkerExit | packages/edge-runtime/worker-pool.ts:1388-1404 | forgets the worker and replaces it if it was active |
| WorkerPools.WorkerPool.SurplusTimerFired | packages/edge-runtime/worker-pool.ts:1263-1273 | retires the worker if it is still idle and surplus |
| WorkerPools.WorkerPool.RotateGeneration | packages/edge-runtime/worker-pool.ts:1654-1677 | advances the generation; outdated idle and parked workers are retired, busy ones tainted |
| WorkerPools.WorkerPool.TakeIdleWorkersForProject | packages/edge-runtime/worker-pool.ts:1999-2018 | exchanges strangers and reserves and returns the fitting idle workers, in order |
| WorkerPools.WorkerPool.Preheat | packages/edge-runtime/worker-pool.ts:1830-1853 | reserves one fitting idle worker |
| WorkerPools.WorkerPool.BulkPreheat | packages/edge-runtime/worker-pool.ts:1967-1990 | reserves the workers of a bulk preheat, after a rotation if versioned |
| WorkerPools.WorkerPool.SetAdmissionBlocked | packages/edge-runtime/worker-pool.ts:1483-1505 | sets the flags; blocking clears the queue, evicts the parked and trims the idle workers |
| WorkerPools.WorkerPool.Handle | packages/edge-runtime/worker-pool.ts:628-745 | one event has exactly the modelled effect |
| WorkerPools.WorkerPool.HandleAll | packages/edge-runtime/worker-pool.ts:628-745 | any sequence of events ends in the state of the model's run |
| WorkerPools.WorkerPool.Serve | packages/edge-runtime/worker-pool.ts:628-745 | on a new pool, after any events: nobody is idle beside a queued request, the lists are disjoint and within all bounds, and a blocked pool is quiet |
| ExecutionModel.GivenBackOnce | packages/edge-runtime/worker-pool.ts:980-1217 | in any order of events an execution returns its worker at most once, by recycling or by retirement, leaves `inFlight` exactly then, and answers at most once |
| ExecutionModel.NeverStuck | packages/edge-runtime/worker-pool.ts:1046-1160 | an unfinished execution always has a running deadline: request timeout, waitUntil timer, cancel timer, or the idle timer of an open receiver once the execution is done |
| ExecutionModel.DeadlinesEnd | packages/edge-runtime/worker-pool.ts:1046-1078 | at most two deadlines in a row finish any execution |
| ExecutionModel.UnansweredMeansNoReply | packages/edge-runtime/worker-pool.ts:1084-1110 | a finished execution without an answer was completed, uncancelled, with no reply message |
| ExecutionModel.SpokenExactly | packages/edge-runtime/worker-pool.ts:1008-1110 | a finished execution has answered its caller once if a reply was handled, it was cancelled, its worker was retired or the work never reached the worker, and never otherwise |
| ExecutionModel.StepVoiced | packages/edge-runtime/worker-pool.ts:1008-1160 | no event answers the caller for any other cause |
| ExecutionModel.StepSound | packages/edge-runtime/worker-pool.ts:1008-1160 | every racing event keeps the lifecycle invariant and never undoes an answer or a return |
| ExecutionModel.CancelSound | packages/edge-runtime/worker-pool.ts:1046-1071 | a cancellation answers the caller and either ends the execution or arms the cancel timer |
| ExecutionModel.FirstDeadline | packages/edge-runtime/worker-pool.ts:1046-1078 | the first deadline ends the execution or arms the cancel timer |
| ExecutionModel.RetiredOnlyForFailure | packages/edge-runtime/worker-pool.ts:1038-1071 | a worker is retired only for a failure, a missed waitUntil or cancel deadline, or a port that refuses the cancellation |
| ExecutionModel.FailureRetires | packages/edge-runtime/worker-pool.ts:1038-1045 | a failing worker is retired, not recycled, and its caller answered |
| ExecutionModel.RecycledAfterStream | packages/edge-runtime/worker-pool.ts:1072-1076 | over every order of events: a worker that had begun is recycled only when its execution is done and its response stream is not open |
| ExecutionModel.DoneIsOver | packages/edge-runtime/worker-pool.ts:1072-1076 | and then it is: an uncancelled execution that is done, and whose stream is not open, is finished |
| ExecutionModel.RecycledAfterProducer | packages/edge-runtime/worker-pool.ts:1128-1140 | the worker of an undisturbed execution that has streamed is recycled only after the producer reported the end of the stream that the reply began |
| ExecutionModel.NoStreamLeftOpen | packages/edge-runtime/worker-pool.ts:1032-1071 | no stream is left open by an execution that is cancelled, or begun and over |
| ExecutionModel.DeliveryEnds | packages/edge-runtime/worker-pool.ts:1128-1140 | a delivered response closes its receiver and changes nothing else; a delivery that fails while its receiver is in use closes it and cancels the execution, unless that is over |
| ExecutionModel.StartFailureEnds | packages/edge-runtime/worker-pool.ts:1202-1216 | work that cannot be started is over at once, its caller answered and its worker given back; a failure of started or finished work is not taken for one |
| ExecutionModel.HeldReplyAnswered | packages/edge-runtime/worker-pool.ts:1084-1108 | a buffered reply reaches the caller exactly when the worker reports pending tasks, or the execution is over or cancelled |
| ExecutionModel.FirstReplyTaken | packages/edge-runtime/worker-pool.ts:1110-1160 | the first reply is handed on at once if it is streamed or cannot be taken, and held otherwise |
| ExecutionModel.DeadlinesExactly | packages/edge-runtime/worker-pool.ts:1046-1108 | while an execution goes on, its request deadline runs until the response ends, that of its tasks from then until the execution ends, and the cancel deadline once it is cancelled |
| Executions.Execution.constructor | packages/edge-runtime/worker-pool.ts:993-1007 | the initial flags |
| Executions.Execution.ResolveOnce | packages/edge-runtime/worker-pool.ts:1008-1018 | answers only the first time |
| Executions.Execution.Cleanup | packages/edge-runtime/worker-pool.ts:1019-1031 | clears all timers and leaves `inFlight` |
| Executions.Execution.ReleaseResponse | packages/edge-runtime/worker-pool.ts:1032-1037 | fails a held stream |
| Executions.Execution.RetireWithFailure | packages/edge-runtime/worker-pool.ts:1038-1045 | answers and retires the worker, once |
| Executions.Execution.RequestCancellation | packages/edge-runtime/worker-pool.ts:1046-1071 | withdraws unposted work, or abandons the response and waits for the worker |
| Executions.Execution.Complete | packages/edge-runtime/worker-pool.ts:1072-1076 | recycles once execution and stream are done |
| Executions.Execution.OnMessage | packages/edge-runtime/worker-pool.ts:1084-1160 | each worker message, ignored once finished |
| Executions.Execution.Handle | packages/edge-runtime/worker-pool.ts:980-1217 | any racing event |
| Executions.Execution.HandleAll | packages/edge-runtime/worker-pool.ts:980-1217 | a whole life: returned at most once, answered at most once, never held without a deadline |
| SlotModel.MessagesStayWithTheirWork | packages/edge-runtime/worker-pool.ts:595-614 | in every run in which no worker is handed back before its preheat is done, each message of a worker is handled by the execution or preheat it belongs to, though messages carry no id |
| SlotModel.WorkNeverOverlaps | packages/edge-runtime/worker-executor.ts:737-966 | in such a run a worker never receives work while other work is under way |
| SlotModel.FreeSlotIsClean | packages/edge-runtime/worker-pool.ts:1219-1235 | in such a run a slot that is free again has a worker at rest and no message of the past on its way |
| SlotModel.HandBackExactly | packages/edge-runtime/worker-pool.ts:1896-1898 | handing a reserved worker back keeps the protocol invariant if and only if its preheat is not under way or the worker is gone; otherwise the slot is free and the preheat goes astray |
| SlotModel.AnsweredIfSpoken | packages/edge-runtime/worker-executor.ts:939-966 | every finished execution has returned its worker exactly once; it has answered its caller exactly once if a reply was handled, it was cancelled, its worker was retired or the work never reached the worker, and never otherwise |
| SlotModel.AnsweredExactlyOnce | packages/edge-runtime/worker-executor.ts:939-966 | if every thrown value has a text, every finished execution has answered exactly once and returned its worker exactly once |
| SlotModel.UnansweredHappens | packages/edge-runtime/worker-executor.ts:939-954 | a run: the handler throws a value without a text, the catch clause throws before its reply, the execution is completed all the same, and its caller is never answered |
| SlotModel.FreeSlotAtWork | packages/edge-runtime/worker-pool.ts:1768-1827 | a run: a preheat whose worker was handed back too early is posted after all, and the free slot has work under way |
| SlotModel.MessagesGoAstray | packages/edge-runtime/worker-pool.ts:1768-1807 | a run: such a preheat takes over the handlers of the execution that was begun meanwhile, drops its reply, and is begun by the worker beside it |
| SlotModel.ExecutionsDoFinish | packages/edge-runtime/worker-executor.ts:884-966 | a witness: one whole execution, message by message, ends answered with its worker recycled, so the promises about finished executions are not empty |
| SlotModel.AfterOver | packages/edge-runtime/worker-executor.ts:952-966 | `execution_complete` is the last message of an execution |
| SlotModel.SlotStepFaithful | packages/edge-runtime/worker-executor.ts:737-966 | every step of pool, worker and channels, except a hand-back that comes too early, keeps the protocol invariant |
| SlotModel.ReceiveFaithful | packages/edge-runtime/worker-pool.ts:1084-1110 | handling the next message, also a completion that follows no reply, keeps flags and message phase in step |
| SlotModel.ConsumeFaithful | packages/edge-runtime/worker-executor.ts:737-835 | work, cancel, control and retire messages keep the protocol invariant; a stale cancel is ignored by its key |
| PoolUses.StepUses | packages/edge-runtime/worker-pool.ts:1275-1321 | no event of the pool starts a request on a worker, or takes it for a preheat, unless that worker is idle, parked, new or just handed back; one on which a request has begun, and which a preheat has taken, is free no more; no worker at work is set free |
| RuntimePromises.StartedIsConcluded | packages/edge-runtime/worker-pool.ts:980-1217 | pool and slots together, while no worker is handed back too early: every request ever started is over, with its worker returned exactly once and answered exactly as the causes in `SpokenExactly` say, or is the one execution under way on its worker |
| RuntimePromises.StartedIsAnsweredOnce | packages/edge-runtime/worker-pool.ts:980-1217 | if besides every thrown value has a text, each of them that is over was answered exactly once |
| RuntimePromises.TurnsDiffer | packages/edge-runtime/worker-pool.ts:980-1217 | no two requests of a worker share an answer |
| RuntimePromises.RequestsAreAccounted | packages/edge-runtime/worker-pool.ts:680-745 | every request that arrived is waiting, or was answered unstarted, or was started at exactly one place |
| RuntimePromises.IdleIsAtRest | packages/edge-runtime/worker-pool.ts:1219-1235 | while no worker is handed back too early, an idle or parked worker has no work, and no message of past work is on its way |
| RuntimePromises.WorkMeetsFreeSlots | packages/edge-runtime/worker-pool.ts:1275-1321 | the pool begins executions and preheats only on slots that are free |
| RuntimePromises.SystemIsAPoolRun | packages/edge-runtime/worker-pool.ts:628-745 | every such run of the system is an admissible run of the pool, so all promises of the pool hold of it |
| RuntimePromises.UndisturbedIsCalm | packages/edge-runtime/worker-pool.ts:1861-1899 | if no reserved worker leaves the pool between its success with one function and the start of the next, no worker is handed back too early, so all promises hold |
| RuntimePromises.NextMemberExactly | packages/edge-runtime/worker-pool.ts:1861-1899 | when the next function of a bulk preheat begins, a hand-back that meets a preheat under way becomes possible if and only if one reserved worker has left the pool and another one is still there |
| RuntimePromises.EarlyNeedsRejection | packages/edge-runtime/worker-pool.ts:1809-1827 | a hand-back meets a preheat under way only in a bulk preheat of which a function could not be begun on every reserved worker |
| RuntimePromises.BulkEnds | packages/edge-runtime/worker-pool.ts:1984-1990 | once no reserved worker is at work, a bulk preheat may end, each of its workers may be handed back, none too early, and with the last one it is over |
| RuntimeSystem.HandBackIsEnabled | packages/edge-runtime/worker-pool.ts:1844-1852 | a reserved worker whose preheat is done comes back while the pool counts it as busy, with its slot free if it is to be used again |
| RuntimeSystem.WorkEndsEnabled | packages/edge-runtime/worker-pool.ts:1219-1235 | so does a worker whose execution has ended |
| RuntimeSystem.SystemStepComposed | packages/edge-runtime/worker-pool.ts:980-1235 | every event of the pool, a slot or a bulk preheat, except a hand-back that comes too early, keeps pool and slots matched: each slot has begun exactly what the pool started on its worker, free workers have free slots, reserved ones keep theirs |
| RuntimeExamples.IdleWorkerAtWork | packages/edge-runtime/worker-pool.ts:1809-1898 | a run of pool and slots: a worker is lost after its success with the first function, the second function is rejected on it, the other worker is handed back at once, and its preheat begins while the pool counts it as idle |
| TransferTheorems.NothingLost | packages/edge-runtime/body-transfer.ts:220-274 | while the receiver is open, delivered, buffered, in-flight and unsent bytes together are the body, in order; once it believes in the end, what it has is the whole body if and only if no read failed with an empty text while bytes were unsent |
| TransferTheorems.CleanMeansComplete | packages/edge-runtime/response-buffer.ts:86-121 | a cleanly closed stream has delivered the whole body if and only if no read failed with an empty text while bytes were unsent; any stream has delivered a prefix of it |
| TransferTheorems.TextsMakeCleanComplete | packages/edge-runtime/response-buffer.ts:86-121 | if no read fails with an empty text, a cleanly closed stream has delivered the whole body |
| TransferTheorems.SilentFailureHappens | packages/edge-runtime/response-buffer.ts:105-121 | a run: the only read fails with an empty text, the receiver takes that for the end, and the consumer sees a clean end one byte short |
| TransferTheorems.SilenceHasACause | packages/edge-runtime/body-transfer.ts:259-263 | the producer has ended with an error that the receiver does not hear, with bytes unsent, if and only if a read failed with an empty text at such a moment |
| TransferTheorems.LimitHolds | packages/edge-runtime/body-transfer.ts:183-192 | under a limit the producer posts at most that many bytes in any run, and never reports the end of a longer body unless it was cancelled |
| TransferTheorems.DemandIsGranted | packages/edge-runtime/response-buffer.ts:69-136 | bytes, a waiting consumer or freed budget make an open receiver grant, with room, exactly if its consumer waits or the read-ahead takes another chunk |
| TransferTheorems.GivingUpIsFinal | packages/edge-runtime/response-buffer.ts:41-68 | a receiver that gives up is over for good: it has failed unless it was over before, both reservations are given back, and nothing more is delivered in any continuation |
| TransferTheorems.CancelledNeverSleeps | packages/edge-runtime/body-transfer.ts:224-242 | in no order of events does a cancelled producer wait for a credit |
| TransferTheorems.CancelledProducerEnds | packages/edge-runtime/body-transfer.ts:224-265 | an abort, or the closed port of a receiver that is gone, wakes the producer, and its next turn or its cancelled read ends it; of an abort it tells the receiver |
| TransferTheorems.OneCredit | packages/edge-runtime/body-transfer.ts:224-242 | while nobody has given up, the one credit is in exactly one place, so a pull never meets a set `available` |
| TransferTheorems.CreditIsWorkedOn | packages/edge-runtime/body-transfer.ts:224-265 | an outstanding credit always has a waiting producer to go to, a producer at work, an answer on its way, or a producer whose catch clause has thrown, so that only the closing port will tell |
| TransferTheorems.PiecesBounded | packages/edge-runtime/body-transfer.ts:254-257 | pieces are non-empty and at most 512 KiB; at most 256 are buffered; spent places are cut off by 128 |
| TransferTheorems.ReservationsExact | packages/edge-runtime/response-buffer.ts:32-36 | once a read-ahead has been granted or the body has ended, both leases equal the buffered bytes plus the outstanding credit, at most max(readAheadBytes, 512 KiB); before that they are those of the constructor; `resize` never grows; both are zero when closed |
| TransferTheorems.ExactOnceGranted | packages/edge-runtime/response-buffer.ts:32-85 | from the first credit on, over every continuation, both leases equal buffered bytes plus credit for as long as the receiver is open |
| TransferTheorems.DemandIsServed | packages/edge-runtime/response-buffer.ts:86-101 | a waiting consumer is never left with bytes in the buffer or after the end of the body |
| TransferProofs.StepSound | packages/edge-runtime/response-buffer.ts:69-139 | every event of either side, failures with any text or none among them, keeps the transfer invariant |
| TransferProofs.FlushReceiving | packages/edge-runtime/response-buffer.ts:86-101 | a flush moves the front chunk to the consumer or closes the stream, losing nothing |
| TransferProofs.PumpReceiving | packages/edge-runtime/response-buffer.ts:69-85 | a pump grants at most one credit, within the read-ahead and the 256 chunks |
| TransferProofs.WorkHonest | packages/edge-runtime/body-transfer.ts:238-258 | a turn of the producer's loop spends its credit on exactly one piece or keeps it |
| TransferProofs.ReadChunkHonest | packages/edge-runtime/body-transfer.ts:183-192 | a chunk that was read is posted from its front, or the limit ends the stream |
| BodyTransfer.BufferedResponse.constructor | packages/edge-runtime/response-buffer.ts:20-31 | an empty open receiver |
| BodyTransfer.BufferedResponse.Resize | packages/edge-runtime/response-buffer.ts:32-36 | both leases become bytes plus credit |
| BodyTransfer.BufferedResponse.Finish | packages/edge-runtime/response-buffer.ts:41-51 | drops the buffer and releases both leases, once |
| BodyTransfer.BufferedResponse.TakeChunk | packages/edge-runtime/response-buffer.ts:88-94 | the front chunk leaves; spent places are dropped |
| BodyTransfer.BufferedResponse.Flush | packages/edge-runtime/response-buffer.ts:86-101 | answers a waiting consumer |
| BodyTransfer.BufferedResponse.Pump | packages/edge-runtime/response-buffer.ts:69-85 | grants a credit exactly under the modelled condition |
| BodyTransfer.BufferedResponse.OnMessage | packages/edge-runtime/response-buffer.ts:105-121 | a chunk, the end, or an error from the producer; an empty error text counts as the end |
| BodyTransfer.BufferedResponse.Pull | packages/edge-runtime/response-buffer.ts:133-137 | the consumer's demand |
| BodyTransfer.BodyProducer.constructor | packages/edge-runtime/body-transfer.ts:220-237 | a producer before its first credit |
| BodyTransfer.BodyProducer.Wake | packages/edge-runtime/body-transfer.ts:224-224 | wakes a parked producer or keeps the credit |
| BodyTransfer.BodyProducer.Abort | packages/edge-runtime/body-transfer.ts:225-234 | an abort or a closed port wakes the producer |
| BodyTransfer.BodyProducer.LoopTop | packages/edge-runtime/body-transfer.ts:239-240 | takes a kept credit or parks |
| BodyTransfer.BodyProducer.Cut | packages/edge-runtime/body-transfer.ts:254-257 | copies and posts the next piece |
| BodyTransfer.BodyProducer.Work | packages/edge-runtime/body-transfer.ts:239-253 | one turn of the loop |
| BodyTransfer.BodyProducer.OnChunk | packages/edge-runtime/body-transfer.ts:246-251 | a chunk that was read, against the limit |
| BodyTransfer.BodyProducer.OnEnd | packages/edge-runtime/body-transfer.ts:247-249 | the end of the body |
| BodyTransfer.BodyProducer.Stop | packages/edge-runtime/body-transfer.ts:249-264 | posts its last message and remembers it |
| BodyTransfer.BodyProducer.Fail | packages/edge-runtime/body-transfer.ts:259-263 | posts the first 4096 characters of the text, or nothing if there is no text to be had |
| BodyTransfer.BodyProducer.OnReadError | packages/edge-runtime/body-transfer.ts:259-263 | a read that fails |
| BodyTransfer.ProbeBody | packages/edge-runtime/body-transfer.ts:183-217 | a small body comes back whole; a larger one loses nothing to the probe; exceeding the limit is an error |
| BodyBuffers.ReadBoundedBody | packages/edge-runtime/body-transfer.ts:74-126 | returns the concatenation of the chunks if and only if they fit the limit and no read or reservation fails; no reservation exceeds twice the limit |
| BodyBuffers.StoreChunk | packages/edge-runtime/body-transfer.ts:94-110 | a chunk is appended page by page; every turn makes progress |
| BodyBuffers.EnsureRoom | packages/edge-runtime/body-transfer.ts:96-105 | a page of positive capacity is reserved twice over before it is allocated |
| BodyBuffers.Join | packages/edge-runtime/body-transfer.ts:112-118 | the pages without their unused rest are the body |
| BodyBuffers.BodyBufferBudget.constructor | packages/edge-runtime/body-transfer.ts:25-31 | an unused budget |
| BodyBuffers.BodyBufferBudget.Lease | packages/edge-runtime/body-transfer.ts:44-45 | a new lease holds nothing |
| BodyBuffers.BodyBufferBudget.TryResize | packages/edge-runtime/body-transfer.ts:46-55 | all or nothing; used is the sum of all leases and within the limit; giving back wakes the waiters |
| BodyBuffers.BodyBufferBudget.Resize | packages/edge-runtime/body-transfer.ts:58-60 | fails exactly when the budget cannot take it, and never when shrinking |
| BodyBuffers.BodyBufferBudget.Release | packages/edge-runtime/body-transfer.ts:61-61 | always succeeds |
| BodyBuffers.ReserveBoth | packages/edge-runtime/response-buffer.ts:73-78 | a chunk is reserved in both budgets or in neither, without a rejection |
| CycleCheck.CycleChecker.CheckAll | scripts/check_workspace_boundaries.ts:198-227 | reports something if and only if the workspace packages have a dependency cycle, self-dependencies included; every reported path is a walk that closes a cycle |
| CycleCheck.CycleChecker.CheckCycle | scripts/check_workspace_boundaries.ts:202-221 | the search below one package ends, restores path and stack, and keeps all reports genuine |
| CycleCheck.SettledIsAcyclic | scripts/check_workspace_boundaries.ts:198-227 | if every package is finished after all its dependencies there is no cycle |
| CycleCheck.WalkFalls | scripts/check_workspace_boundaries.ts:198-227 | along a walk the finishing order strictly falls |
| CycleCheck.BackEdgeIsGenuine | scripts/check_workspace_boundaries.ts:212-214 | an edge back to the stack closes a cycle that the reported path shows |
| ActivationProofs.OneFence | packages/edge-runtime/server.ts:1304-1352 | at most one fence is in force in the whole runtime |
| ActivationProofs.FencesInTurn | packages/edge-runtime/function-activation.ts:288-298 | while no begin comes late, the fence in force is that of the published authority or of its immediate successor, so a settled one that is not published yet may always be |
| ActivationProofs.CommitIsProven | packages/edge-runtime/server.ts:1388-1404 | a fenced commit of an active candidate rests on a preheat of exactly the present pool generations |
| ActivationProofs.NoRotationSinceProof | packages/edge-runtime/server.ts:1884-1890 | neither pool has rotated between the recorded preheat and the commit that relies on it |
| ActivationProofs.CommitLiftsExactly | packages/edge-runtime/server.ts:1366-1405 | a commit lifts if and only if it found its candidate's fence, the manifest it read is its candidate, and an active candidate is preheated in the present generations |
| ActivationProofs.AbortLiftsExactly | packages/edge-runtime/server.ts:1407-1421 | an abort lifts if and only if it found its candidate's fence and the manifest it read is the authority to be succeeded |
| ActivationAnswers.AnswersExactly | packages/edge-runtime/function-activation.ts:270-286 | each of the five answers of a commit or abort, by what it found, read, asked for and was shown: committed, commit pending, fenced, aborted, uncertain |
| ActivationAnswers.AnswersWereTrue | packages/edge-runtime/server.ts:1366-1421 | over every run: an operation that answers committed read its candidate as published, one that answers aborted read something else |
| ActivationAnswers.BeginExactly | packages/edge-runtime/server.ts:1304-1338 | over every run: a begin puts a fence for its candidate in force exactly if none is in force when it goes on and the candidate succeeds what was published when it read; otherwise it changes no fence |
| ActivationAnswers.SettleExactly | packages/edge-runtime/server.ts:1339-1350 | success marks exactly its fence; failure takes it away exactly if it is the one in force |
| ActivationAnswers.PreheatExactly | packages/edge-runtime/server.ts:1884-1890 | a preheat is recorded exactly if its fence is in force and both pools are of the attested generations |
| ActivationProofs.StepSound | packages/edge-runtime/server.ts:1304-1421 | every read, begin, settlement, preheat, publication, commit and abort keeps the fence invariant |
| RuntimeActivations.ActivationServer.ReadForBegin | packages/edge-runtime/server.ts:1304-1315 | keeps the authority read from the manifest until the begin goes on |
| RuntimeActivations.ActivationServer.Begin | packages/edge-runtime/server.ts:1316-1338 | installs a fence only for the successor of what was read and only if none is in force |
| RuntimeActivations.ActivationServer.Settle | packages/edge-runtime/server.ts:1339-1350 | a failed invalidation takes away only its own fence |
| RuntimeActivations.ActivationServer.PreheatDone | packages/edge-runtime/server.ts:1884-1890 | records a proof only for the fence in force and the present generations |
| RuntimeActivations.ActivationServer.Ask | packages/edge-runtime/server.ts:1366-1373 | captures the fence before the manifest is read |
| RuntimeActivations.ActivationServer.Read | packages/edge-runtime/server.ts:1297-1302 | keeps the authority read from the manifest until the operation goes on |
| RuntimeActivations.ActivationServer.Decide | packages/edge-runtime/server.ts:1374-1421 | decides by what was found and read, and lifts, in one turn |
| ActivationRaces.StaleDecision | packages/edge-runtime/server.ts:1366-1421 | a decision lifts a fence it did not find if and only if the fence at its key is another one and the operation found, read and was shown what it takes: for a commit its candidate's fence, its candidate as published and a present preheat, for an abort its candidate's fence and the authority to be succeeded |
| ActivationRaces.ForeignLiftHistory | packages/edge-runtime/server.ts:1366-1421 | that happens if and only if, between asking and deciding, the fence it found was removed by another decision on the key or by a failed invalidation, and later a begin installed the present one |
| ActivationRaces.OrderlyDecisionsAreTheirOwn | packages/edge-runtime/server.ts:1366-1421 | with one decision at a time on a key, asked after its begin has answered, no decision ever lifts a fence it did not find |
| ActivationRaces.RaceExactly | packages/edge-runtime/server.ts:1366-1421 | while no begin comes late: a commit or abort lifts the fence of a published candidate, other than by a commit of that candidate, if and only if it takes a fence and the candidate was published between its read of the manifest and its decision |
| ActivationRaces.RaceOrLateBegin | packages/edge-runtime/server.ts:1304-1421 | whatever begins came late: then the candidate was published between read and decision, or the decision is an abort of the very successor of the candidate whose fence is back in force |
| ActivationRaces.PublishedFenceNeedsItsCommit | packages/edge-runtime/server.ts:1366-1421 | if nothing is published at a key between the read and the next step of a begin, commit or abort of it, the fence of a published candidate is lifted only by a commit of that candidate |
| ActivationRaces.AbortedIsUnpublished | packages/edge-runtime/server.ts:1407-1421 | under the same discipline an abort never lifts the fence of a published candidate |
| ActivationRaces.ManagedFencesHold | packages/edge-runtime/server.ts:1366-1421 | with one decision at a time on a key and no publication of a candidate whose abort is unanswered, published fences are lifted only by their own commits, whatever was read, and no decision lifts a fence it did not find |
| ActivationRaces.LateBeginExactly | packages/edge-runtime/server.ts:1304-1338 | a begin installs a fence that is not of the immediate successor of what is published if and only if something was published at its key after it read the manifest |
| ActivationExamples.AbortRaceHappens | packages/edge-runtime/server.ts:1407-1421 | a reachable state in which an abort, answered `aborted`, lifts the fence of its candidate after that was published |
| ActivationExamples.StaleCommitHappens | packages/edge-runtime/server.ts:1366-1405 | a reachable state in which a repeated commit of one candidate lifts the fence of the next, published one |
| ActivationExamples.LateBeginHappens | packages/edge-runtime/server.ts:1304-1338 | a reachable state in which a repeated begin puts the fence of a published and committed candidate in force once more |
| TenantEnvModel.CacheIsCurrent | packages/edge-runtime/tenant-env.ts:330-358 | a cached environment always carries the current epoch |
| TenantEnvModel.OneLoadAtATime | packages/edge-runtime/tenant-env.ts:360-382 | within an epoch at most one load is under way, and every request meanwhile joins it |
| TenantEnvModel.OvertakenLoadIsDropped | packages/edge-runtime/tenant-env.ts:360-382 | a load overtaken by an invalidation is neither cached nor returned: it settles with or waits for one of the current epoch |
| TenantEnvModel.AnswersAreNotOlder | packages/edge-runtime/tenant-env.ts:360-382 | a request is never answered with an environment older than the epoch in which it was made |
| TenantEnvModel.WaitingGoesForward | packages/edge-runtime/tenant-env.ts:360-382 | a retry waits only for a load of a later epoch, so loads never wait in a circle |
| TenantEnvModel.ObservationIsLatest | packages/edge-runtime/tenant-env.ts:444-467 | the stored observation is that of the highest accepted ordinal; accepted ordinals strictly rise and epochs never fall |
| TenantEnvModel.OrdinalsRise | packages/edge-runtime/tenant-env.ts:433-438 | the reservations of a run are numbered without gaps, and their epochs never fall |
| TenantEnvModel.LatestIsRecorded | packages/edge-runtime/tenant-env.ts:444-467 | the latest reservation is accepted, once, exactly if no invalidation has come between |
| TenantEnvModel.LoadIsServed | packages/edge-runtime/tenant-env.ts:330-382 | a load fetched before any invalidation settles with its own environment, and every request gets it until expiry |
| TenantEnvModel.FailedLoadIsForgotten | packages/edge-runtime/tenant-env.ts:360-382 | a failed load leaves cache and in-flight entry alone or empty, so the next request loads again |
| TenantEnvModel.InvalidationIsFinal | packages/edge-runtime/tenant-env.ts:479-483 | after an invalidation the next request starts a load, and in any continuation neither the cache nor any answer is of a load that began before it |
| TenantEnvModel.EpochCounts | packages/edge-runtime/tenant-env.ts:479-483 | the epoch counts the invalidations, and a load carries the number of those before it began |
| TenantEnvModel.WaitingLoadFollows | packages/edge-runtime/tenant-env.ts:371-380 | an overtaken load settles as the load it waits for |
| TenantEnvModel.StepSound | packages/edge-runtime/tenant-env.ts:330-484 | every load, invalidation, reservation and record keeps the cache invariant |
| TenantEnvs.TenantEnvCache.LoadTenantRuntimeEnv | packages/edge-runtime/tenant-env.ts:360-382 | cache, then the load under way, then a new load; other projects untouched |
| TenantEnvs.TenantEnvCache.FetchDone | packages/edge-runtime/tenant-env.ts:330-358 | caches only if the epoch is still current |
| TenantEnvs.TenantEnvCache.Continue | packages/edge-runtime/tenant-env.ts:371-380 | returns or asks again |
| TenantEnvs.TenantEnvCache.InvalidateTenantEnvCache | packages/edge-runtime/tenant-env.ts:479-484 | a new epoch with nothing cached or in flight |
| TenantEnvs.TenantEnvCache.ReserveTenantEnvDispatch | packages/edge-runtime/tenant-env.ts:433-438 | the next ordinal with the current epoch |
| TenantEnvs.TenantEnvCache.RecordTenantEnvDispatch | packages/edge-runtime/tenant-env.ts:444-467 | accepts only current and later ordinals |
| MemoryPressureModel.NeverBoth | packages/edge-runtime/memory-pressure.ts:136-181 | blocked and recovering are never both set |
| MemoryPressureModel.LimitBlocks | packages/edge-runtime/memory-pressure.ts:150-154 | a sample at the limit, or at 85 percent of a hard one, leaves admission blocked |
| MemoryPressureModel.ReopeningNeedsTwoRuns | packages/edge-runtime/memory-pressure.ts:163-172 | with all samples at or above 85 percent, admission reopens only after two disjoint runs of three stable samples |
| MemoryPressureModel.PressureNeedsThree | packages/edge-runtime/memory-pressure.ts:200-210 | pressure is reported only at the third pressing sample of one group in a row |
| MemoryPressureModel.StoppedExactly | packages/edge-runtime/memory-pressure.ts:200-221 | the monitor has stopped exactly if some three samples in a row pressed, all of one group |
| MemoryPressureModel.ClosesExactly | packages/edge-runtime/memory-pressure.ts:150-154 | open admission is closed by one sample exactly at the limit, at 85 percent of a hard one, or at 85 percent after throttling |
| MemoryPressureModel.SixStableReopen | packages/edge-runtime/memory-pressure.ts:163-172 | six stable samples in a row, below the limit and not near a hard one, open admission |
| MemoryPressureModel.GapStartsOver | packages/edge-runtime/memory-pressure.ts:185-199 | after a poll without a measurement the next sample counts neither as stable nor as throttled |
| MemoryPressureModel.ClosedWhileThrottling | packages/edge-runtime/memory-pressure.ts:155-162 | while reclaim throttles, admission that is not open stays so until usage falls to 75 percent |
| MemoryPressureModel.MovesExactly | packages/edge-runtime/memory-pressure.ts:149-181 | one sample opens closed admission exactly below 85 percent, and above 75 percent only without throttling, or as the third stable one while recovering; what blocks recovering admission again, and what lets blocked admission recover, is exact too |
| MemoryPressureModel.PressesExactly | packages/edge-runtime/memory-pressure.ts:200-206 | a sample presses exactly at 90 percent of the limit, if it is at the limit or throttled since the sample before |
| MemoryPressureModel.RelaxedOpens | packages/edge-runtime/memory-pressure.ts:155-162 | at 75 percent or below one sample opens admission |
| MemoryPressureModel.NearStep | packages/edge-runtime/memory-pressure.ts:163-172 | near the limit the stable count grows by one or starts again, and only a full count moves on |
| MemoryPressure.PressureMonitor.UpdateAdmissionState | packages/edge-runtime/memory-pressure.ts:136-181 | the admission decision, and whether listeners hear of it |
| MemoryPressure.PressureMonitor.Poll | packages/edge-runtime/memory-pressure.ts:185-221 | one poll: admission, pressure count, and the stop |
| MonitoredPool.PressureQuietsThePool | packages/edge-runtime/server.ts:2139-2143 | a pool driven by the monitor agrees with its flags; blocked means nothing queued, blocked or recovering means nobody parked |
| MonitoredPool.StepDriven | packages/edge-runtime/server.ts:2139-2143 | every pool event and every poll keeps pool and monitor in agreement |

## Left out

- Tenant capacity budgets and the heap-based delay: every pool result is for a pool without them.
- The rotation in `dequeueQueued` and `lastDispatchedProjectRef`: `schedule` always assigns a project before it dequeues, so they are never the path taken.
- The early returns of `dispatch` before `enqueue` (aborted signal, no lease) and cancellation by `cancelKey`: only the cancellation of one queued request is an event of the pool.
- Workers that stop answering control messages: they appear as the events that retire or taint a worker; the messages themselves appear only in `SlotModel`.
- The recycle notification callback and the retirement budget callback; the fail-safe itself is modelled as draining.
- `shutdown` failing deliveries directly, forced process exits, logs, metrics, heap figures (one flag says that a worker exceeded its budget) and HTTP headers.
- ExecutionModel.NeverStuck: for executions outside shutdown; the request-side lease of `execute` is not modelled.
- SlotModel.AnsweredExactlyOnce: tenant code that blocks the worker for ever is ended by the deadlines of `ExecutionModel`; a worker may stop posting at any point, but what it posts keeps to the order of the two handlers in the worker.
- SlotModel.MessagesGoAstray: of a preheat whose worker was handed back too early the model keeps whether it is posted and whose handlers are installed; its timeout and later failure are one event that retires the worker.
- TransferModel: an error text is a string; other values that tenant code can put there count as an empty text if they are falsy when received, as a non-empty one if they are not, and as no text if they cannot be posted.
- RuntimeSystem: the validation of a release before it begins, its attestation and results are left out; workers of a bulk preheat are handed back one after the other. An error or exit of a worker is one event of the pool and one of the execution, in either order; the surplus, parked and retirement timers may fire at any time.
- TransferTheorems.OneCredit: claimed while neither side has given up; an abort wakes the producer without a credit, after which it posts nothing but the end.
- PoolArrivals.RoomForTwo: for an arrival whose request does not fail at once on the worker that takes it.
- BodyBuffers.ReserveBoth: for two different budgets, as the runtime configures them.
- BodyBuffers.ReadBoundedBody: the budget's answers are an arbitrary function of the reservation asked for.
- CycleCheck.CycleChecker.CheckAll: the tag rules of the same script, and the wording of the reports, are left out.
- ActivationModel: manifests are immutable per activation id; a candidate is published only after its begin has answered, while its fence is in force, and as the successor of the manifest under the lock that made it (`edge-function.service.ts:2575-2598`). These are the management side's part and not checked by the runtime. The configuration cache and the read-only status route are left out.
- TenantEnvModel: one project at a time; expiry is an event parameter; environment contents, proofs and the fallback file are opaque.
- MemoryPressureModel: ratios are compared by cross-multiplication instead of floating point; control-group parsing is left out.
- The bytecode, trusted-file and release caches, the sandbox shims and all parsers: they would add only easy members.
