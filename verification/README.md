# svcinit, verified

A Dafny model of svcinit, an initialization system for Go services, and proofs of what it promises: a manager walks
ordered stages, sets up and starts the tasks of each stage in parallel, waits for the first task to end, and then
stops and tears down, in reverse order, exactly what was started and set up.

Verify everything with `dafny verify dfyconfig.toml`.

## How it is built

**The lifecycle is a transition system** (`Lifecycle.dfy`). A `State` holds where the manager thread is (`PC`), where
the goroutine of each step of each task is (`Phase`), each task's log of executed steps, the fields behind the
manager's mutex, the contexts with their first causes, a virtual clock, and the history of what could be seen from
outside. An `Action` is one atomic move of the manager, of a goroutine, of a caller, of a task or of time; `Enabled`
says when it can happen and `Apply` what it does. `Reachable` is every state of every run: any configuration, any
number of stages and tasks, any results of the tasks, any interleaving. Two fields of the configuration say what the
code of the user may do: whether a setup may take the start step away from its task (`keepsStart`), and whether there
is an error handler and may hide that a setup failed (`errorHandler`). In this way `run.go` is covered as follows.

| in the source | in the model |
|---|---|
| the loops of `start` and `shutdown` (run.go:184-312) | `PC.Scan`, `PC.Await`, `DoProceed` |
| the checks and launches of `runStageStep` (run.go:386-420) | `DoCheckNext`, `CheckTask` |
| the goroutine of a step (run.go:428-502, task_wrapper.go:65-85) | `PrepareTask`, `BeginTask`, `ReturnTask`, `SettleTask`, `DoReport`, `DoExit` |
| the wait groups (run.go:367-379, 505-515; util.go:15-27) | `StageQuiet`, `StageSignalled`, `AllStartsOver`, `MayProceed` |
| the error callbacks (run.go:191-212, 240-244, 287-291) | `OnError` |
| reading tasks, publishing contexts (run.go:47-98) | `DoReadRegistry`, `DoPublish`, `DoApplyPending` |
| the select on the first end (run.go:116-144) | `DoSelect` |
| timeouts (run.go:219-312) | `TickClock`, `DoTurn`, `DoClose` |
| requests under the mutex (manager.go:67-148, run.go:318-335) | `Serve`, `RequestCancel`, `RecordInitError` |
| notifying skipped tasks (run.go:518-532) | `DoNotify`, `SkipTask` |

**Its invariant** is kept by every action. `TaskInvariant.dfy` says what holds of one task, given how far the manager has
come with it (`View`); `Invariant.dfy` computes that view from the program counter and adds what holds of the manager.
`History.dfy` ties the history to the state and `Order.dfy` says what may follow what. `Causes`, `Cancels`, `Shutdown`, `Outcomes`,
`Liveness`, `Measure`, `Stops` and `Skips` hold the invariants about causes, who ends the startup context, errors and the clock, results, waiting,
termination, stop steps and futures; `AllRuns.dfy` puts them together.

**The theorems** about runs are in `StepGuarantees`, `StageGuarantees`, `RunGuarantees`, `ErrorGuarantees` (what
callers find in the returned errors), `Registration`, `Refusals` (runs that enter no stage), `DataGuarantees` and
`Readiness`. `Limits.dfy` has concrete runs for promises that hold only up to a point.

**The classes** are the objects that the source updates in place, in its own form: `TaskWrappers` (wrapper, options,
start step manager), `Managers` (manager, tasks of the stages), `MultiErrors`, `Futures` (latch and future), `Builds`
(built tasks and their chains), `InstanceTasks` (instance and future tasks) and `Health` (probe handler, registration).
The methods of the wrapper, the manager and the instance and future tasks are proved to make the moves of the lifecycle,
and also state on their own fields what they did.

## What the code does, where its comments say otherwise

- The comment on `TaskInfo.Skipped` (task.go:49-51) says that it is called when a run returns without having run any
  step of the task. It is called exactly when the stage of the task was never entered (`SetupOrSkip`). So a task that
  can be told is left alone, neither run nor told, exactly when its stage was entered and has no work for it: it has
  neither a setup nor a teardown step, and it has no start or stop step either or the setups of its stage failed
  (`LeftAloneExactly`, `RanExactly`; `StartOnlyNeverTold` is such a run).
- A launched start step is stopped only if it was recorded before the check of its stop step (`StopLaunched`); one that
  was launched but not yet called is not (`LaunchedStartNotStopped`).
- A setup error that wraps `ErrExit` makes `Run` return nil, and no other failed start does (`FailedRunReturns`,
  `StartOnlyNeverTold`).
- `Run` waits forever exactly when it reaches its select without a failed setup, with no start step left in any task,
  and with nobody who asks it to end (`WaitsOnlyWhenAbandoned`, `AbandonedExactly`). A configuration has such a run if
  and only if a setup may take the start step away from its task (`NeverAbandonsIff`).
- A start, stop or teardown step is given its data in all runs of a configuration if and only if no error handler may
  turn the error of a setup into none (`AlwaysGivesDataIff`).

## Model

| member | source | states |
|---|---|---|
| StepGuarantees.OrderErrorUnreachable | run.go:406-412 | In every reachable state, with or without enforced timeouts, the check about to be made is not out of order, so no fatal error comes from the manager's own checks. |
| StepGuarantees.AtMostOnce | task_wrapper.go:43-56 | Nothing in a run's history happens twice: each step of each task is checked, called and left at most once, each call after its check and each return after its call. |
| StepGuarantees.StepLog | task_wrapper.go:130-153 | A step log never repeats a step, begins with setup and has no stop without an earlier start; until the enforced timeout ends it is a subsequence of setup, start, stop, teardown. |
| StepGuarantees.ExactRollback | run.go:184-216 | When a run returned: a teardown step ran, to its end, exactly for the tasks that have one and whose setup was recorded; a setup was recorded exactly when its stage was entered and it did not fail; tasks of other stages, and tasks whose setup failed, ran nothing further; in the failing stage nothing started or stopped. |
| StepGuarantees.StageFails | run.go:188-202 | The walk forward ends with a failure exactly when a setup failed. |
| StageGuarantees.SetupBarrier | run.go:184-216 | A setup is called only after every task of every earlier stage was checked for setup and start, its setup returned, and its start step, if launched, signalled so. |
| StageGuarantees.StopBarrier | run.go:235-244 | After a stop step ran, a stop step of a later stage is entered or left only if timeouts are enforced and the shutdown context ended before. |
| StageGuarantees.TeardownBarrier | run.go:283-291 | After a teardown step ran: no start or stop step is launched, one runs only past an enforced timeout, nothing is set up, and no teardown step of a later stage is touched at all. |
| StageGuarantees.ShutdownBarrier | run.go:116-144 | After a stop step ran nothing is set up, no start step is launched and no task is skipped. |
| StageGuarantees.StopLaunched | run.go:402-427 | A checked stop step is launched if and only if the task has it or a start step manager, its start was checked, and its start step, if it had one launched, was entered before the check. |
| StageGuarantees.SetupOrSkip | run.go:518-532 | When Run returned in any way, each task was offered its setup if and only if its stage was entered, and told it is skipped if and only if it can be told and its stage was not; nothing twice; and what it is told is why the run returned early, or the error the setups failed with. |
| StageGuarantees.RanExactly | run.go:184-312 | When Run returned in any way, some step of a task was called, or may still be past an enforced timeout, if and only if its stage was entered and it has a setup or teardown step, or a start or stop step with the start steps of its stage launched. |
| StageGuarantees.LeftAloneExactly | task.go:49-52 | The exact condition under which a returned run neither called nor told a task that can be told: its stage was entered and had no work for it. |
| StageGuarantees.HistoryGrows | run.go:34-45 | Along every run the history only grows. |
| RunGuarantees.WaitsOnlyWhenAbandoned | run.go:47-60 | A run that was called and did not return cannot move and has no task inside its own code if and only if it is abandoned: it waits for a first task, none was started, and nobody asked it to end. |
| RunGuarantees.AbandonedExactly | run.go:50-60 | A state is abandoned if and only if the run is at its select, no setup failed, no caller ended it, no request was made or is under way, and no task has a start step any more. |
| RunGuarantees.NeverAbandoned | run.go:50-60 | If no setup takes the start step away from its task, whatever else it changes, no reachable state is abandoned: the start step that was counted is launched. |
| RunGuarantees.RunReturns | run.go:116-130 | When nothing can move and no task is inside its code, Run has returned, with a result, if and only if it is not at the select, or setups keep the start steps, or some task has one. |
| RunGuarantees.MovesBounded | run.go:184-312 | From the read of its tasks on, a run makes at most 10 + 5k(n+2) + 29n moves of its own, for k stages and n tasks, whatever callers, tasks and time do. |
| RunGuarantees.ExitCauseIsFirst | run.go:116-162 | The cause is the failure of the setups; else the first error given to the startup cancel, or that of the caller if the caller cancelled; `ErrExit` in it, and only that, makes the returned error nil. |
| RunGuarantees.CauseIsFixed | run.go:117-135 | When the select takes the ended startup context before the caller cancelled, the first error given to the startup cancel is the cause for good, even if the caller cancels afterwards. |
| RunGuarantees.CallerIsHeard | run.go:116-135 | A caller's cancel while the run waits can always be taken, and then its cause is the run's for good, unless a setup failed. |
| RunGuarantees.FirstTaskWins | run.go:204-212 | With no failed setup, no cancel by the caller and no request, a run returns the error of the start step that reported first, or none if that ended without one or with `ErrExit`. |
| RunGuarantees.EachCancelOnce | run.go:191-212 | A start step called the startup cancel if and only if it reported, exactly once, with its error or `ErrExit`. |
| RunGuarantees.FirstCancelStays | run.go:204-212 | Later ends, shutdowns and additions only append to the cancels: the first stays first. |
| RunGuarantees.CauseIsRead | run.go:117-135 | From the select on the cause is never missing, and is the failed setups' error, or else that of the caller's or of the startup context. |
| RunGuarantees.NoFatalError | run.go:153-162 | No error that a run collects carries the internal fatal mark, so none is joined to the cause. |
| RunGuarantees.ResultStays | run.go:144-180 | Nothing that happens after Run returned changes what it returned. |
| RunGuarantees.SetupErrorsConserved | run.go:188-202 | The error of the failing stage is built from exactly, as a multiset, the wrapped errors of all its failed setups. |
| ErrorGuarantees.FailureIs | defs.go:91-93 | With errors.Is, the error of a failed start is `ErrInitialization` and whatever the error of one of its failed setups is, alone or in a list, and no other sentinel. |
| ErrorGuarantees.FailedRunReturns | run.go:116-162 | A run with a failed start returns that error, which is `ErrInitialization` and each setup's error; it returns none if and only if the error of one of the setups is `ErrExit`. |
| RunGuarantees.StopErrorsConserved | run.go:233-312 | With timeouts not enforced, the stop error is built from exactly all errors of stop and teardown steps, lists flattened one level, and those of the manager itself. |
| ErrorGuarantees.StopErrorIs | run.go:240-312 | With timeouts not enforced, errors.Is finds in the stop error exactly what it finds in the error of a stop or teardown step or in what the manager added. |
| RunGuarantees.StopErrorsReported | run.go:240-312 | With timeouts enforced too, nothing but such errors is in the stop error, and late reports do not change it. |
| RunGuarantees.TimeoutErrors | run.go:257-305 | Without a cancelled base context, the manager adds a timeout error when the teardown begins exactly if it has its own timeout and the one of the shutdown expired, and at the end exactly if the timeout of the teardown, its own or the shared one, expired. |
| ErrorGuarantees.EndedBaseIsTold | run.go:257-305 | With an ended base context, the manager adds one error when a teardown with its own timeout begins and one at the end: that a timeout expired, or else that context's cause unless it is a deadline. |
| ErrorGuarantees.TimesAreKept | run.go:219-281 | The shutdown timeout is counted from the select and the teardown timeout from the turn to the teardown, in every continuation, and time does not go back. |
| RunGuarantees.ShutdownIsBounded | run.go:219-251 | With an enforced timeout and a manager that does not dawdle, the stop phase never lasts longer than the timeout, for any number of stages and whatever the tasks do. |
| Registration.AddDoesOneThing | manager.go:67-87 | However it races with Run, adding a task adds it, records an error or asks the run to end: exactly one of them, and which one. |
| Registration.RequestLeaves | manager.go:67-87 | What every request leaves: a good task at the end of the list, as it was given and untouched; or its error at the end of the initialization errors, before a run only; or its cancel, named after it and with its own cause, called at once if the contexts exist, else kept unless one is kept already. |
| Registration.FirstRequestStays | manager.go:140-148 | The first request that is kept for the run stays the kept one whatever comes later, and has called the cancel by the time a stage is entered. |
| Registration.RequestDecides | manager.go:132-148 | When a request was the first to end a run without a failed setup or a cancel by the caller: after `Shutdown` it returns no error; after a late task or error it returns one that is `ErrAlreadyRunning` and the given error, unless that is `ErrExit`. |
| Refusals.RefusedRun | run.go:47-60 | A run with initialization errors, or without a task with a start step, checks and calls nothing; it returns all initialization errors in order, each found by errors.Is, or else `ErrNoStartTask`. |
| Refusals.EnteredExactly | run.go:47-77 | A run returned without entering a stage exactly if it returned early; then it had such a fault or there are hooks, and any other run had neither fault. |
| Refusals.HookRefuses | run.go:70-77 | When a hook fails, nothing is checked or called either, and the run returns the error of the hook. |
| Registration.RegistryFrozen | run.go:47-60 | From the first locked read of the run on, its tasks, their places and its initialization errors do not change. |
| Registration.NoRequestLost | manager.go:140-148 | A request to end is pending until the contexts exist and ends the startup context from then on; one pending when they are made ends it before the first stage. |
| DataGuarantees.NeverResolvedTwice | future.go:155-179 | In every reachable state a future was resolved at most once: the panic of a second resolution is not reached. |
| DataGuarantees.FutureResolved | futuretask/task.go:25-48 | When the walk forward is over, each future is resolved exactly once: with the value of its setup, with the error its setup failed with, or, if and only if its stage was not entered, with an error that is `ErrTaskSkipped` and the reason. |
| DataGuarantees.ResolvedBeforeStop | run.go:100-144 | Once any stop step was called, every future is resolved. |
| DataGuarantees.InstanceData | instancetask/build.go:34-46 | Unless an error handler may hide the error of a setup, every start, stop and teardown call of an instance task reads exactly the data of its one successful setup: the error of missing data is not reached. |
| DataGuarantees.SetupMakes | instancetask/build.go:82-90 | What a setup returned is the task's data in every later state of every run, all its other calls read just that, and the future of a future task holds it, or the error that the setup returned. |
| DataGuarantees.NeverInitializedTwice | instancetask/build.go:82-85 | When a setup returns there was no data before it: the error of a second initialization is not reached. |
| DataGuarantees.DataNeverChanges | instancetask/build.go:82-90 | Once made, the data of a task is the same for the rest of the run. |
| DataGuarantees.StartStepManager | run.go:434-475 | A stop step with a start step manager sees both handles if a start step was launched and none otherwise; finished is closed only after the start step returned, carries exactly its error, and is closed when its goroutine is over. |
| Readiness.AnswersForward | health_http/handler.go:175-206 | Over a whole run with probes asked at any time, the answers to each probe go 412, 200, 503 and never back. |
| Readiness.AnswersMean | health_http/handler.go:175-206 | What each answer says of the run when it was given: with a startup probe, 200 to startup or readiness only after the setups of the two earlier stages returned, 412 only before the ready stage's task did; 503 only to readiness and after the service stage's stop step was called, and 200 to readiness only before it returned. |
| Readiness.StartedAfterSetups | k8sinit/health.go:23-32 | With a startup probe, the service counts as started only after every setup of the management and initialize stages succeeded. |
| Readiness.TerminatingAfterStarted | k8sinit/health.go:34-43 | It counts as terminating only after it started and during the shutdown, and then readiness answers 503. |
| Limits.DroppedStartAbandons | build.go:178-185 | In every configuration where setups may take the start step away, a run that waits forever, because one took away the only start step. |
| Limits.NeverAbandonsIff | run.go:50-60 | All runs of a configuration are free of abandoned states if and only if setups keep the start steps of their tasks. |
| Limits.LaunchedStartNotStopped | run.go:470-480 | A run with a launched start step and a checked stop step that was not launched. |
| Limits.HiddenErrorLosesData | task_wrapper.go:77-82 | In every configuration whose error handler may hide the error of a setup, a run where the start step is called without data. |
| Limits.AlwaysGivesDataIff | instancetask/build.go:73-90 | All runs of a configuration give every start, stop and teardown step of instance tasks its data if and only if no handler may hide the error of a setup. |
| Limits.StartOnlyNeverTold | task.go:49-52 | For every setup error, a run where a task is neither called nor told, and Run returns nil exactly if the error wraps `ErrExit`. |
| TaskInvariant.CheckInOrder | task_wrapper.go:130-153 | Given how far the manager is with a task, the next check of the task is in order. |
| Invariant.StepInv | run.go:184-312 | Every action of anyone keeps the invariant of the manager and of all tasks. |
| History.StepMakes | run.go:386-515 | Every action makes exactly the event it adds to the history happen, which had not happened before. |
| Order.StepOrdered | run.go:184-312 | Every action keeps the order of events: what may never follow what, and what may only past an enforced timeout. |
| Measure.StepBrings | run.go:184-312 | Every own move of a run lowers a measure, and no other action raises it once the run has begun. |
| Steps.InOrderIsSubsequence | defs.go:32-37 | A log in the order of the steps is a subsequence of all steps. |
| Errors.OrdinaryHasNoFatal | defs.go:95-106 | A walk through an error finds an internal mark if and only if there is one anywhere in its tree. |
| Errors.OrdinaryExit | run.go:149-162 | With ordinary errors, the returned error is the cause, or none if that wraps `ErrExit`, whatever the stop errors are. |
| Errors.FoundFatal | run.go:153-158 | A marked error that the walk finds is marked in the tree, and all that errors.Is finds in it is found in the tree. |
| Errors.FatalReachesCause | run.go:149-162 | A marked error among the stop errors always reaches the returned error: alone after a normal exit, else together with the cause. |
| Errors.BuiltIs | util.go:102-117 | A sentinel is found in a built error if and only if it is found in one of the errors it was built from. |
| TaskWrappers.LastSettingWins | task_wrapper.go:30-39 | The last setting of an option wins, so those of the task win over those it was added with; a start step manager stays on. |
| TaskWrappers.HandlerAndCallbacks | task_wrapper.go:30-39 | The last handler wins, and callbacks are called in the order they were added. |
| TaskWrappers.GoroutineIsMoves | run.go:428-502 | A goroutine run from launch to error callback is four moves of the lifecycle in a row. |
| TaskWrappers.TaskWrapper.CurrentOptions | task_wrapper.go:33-39 | The loop computes the options of the addition with all options of the task applied in order. |
| TaskWrappers.TaskWrapper.PrevStepIsDone | task_wrapper.go:121-153 | An order error exactly when the step, or a later one that excludes it, was executed; else whether its predecessor was. |
| TaskWrappers.TaskWrapper.CanStartStep | task_wrapper.go:106-115 | A step can start if the task has it, and a stop step also with a start step manager. |
| TaskWrappers.TaskWrapper.CheckStartStep | task_wrapper.go:43-56 | The check changes the log as the lifecycle does, allows exactly what it launches, and fails exactly out of order. |
| TaskWrappers.TaskWrapper.Prepare | run.go:430-475 | The fields of the start step manager are set, and handed to the stop step, as the lifecycle does. |
| TaskWrappers.TaskWrapper.Run | task_wrapper.go:65-85 | Recording, calling and recording again, with whatever the task returns, is the begin, return and settle moves. |
| TaskWrappers.TaskWrapper.Goroutine | run.go:428-502 | The whole goroutine is those moves, and runs the step if and only if the task still has it; the context of a start step is open until then and ends cancelled, and the context of its end carries exactly its error. |
| TaskWrappers.TaskWrapper.SeesTheEnd | context.go:86-104 | Whoever is given the context of the end of a start step sees it closed exactly when that is not running, and reads exactly its error. |
| TaskWrappers.EndRoundTrip | context.go:64-104 | The error put into that context is the one read from it, none included. |
| TaskWrappers.StepManager.ContextCancel | context.go:76-84 | Cancels the start step if it can, keeping the first cause, and says whether it could. |
| Managers.CheckStages | run.go:15-32 | The loop accepts stages exactly if there is one, none is blank and none is twice, and fails with the right error. |
| Managers.StageTasks.Add | run_helpers.go:18-20 | The list of each stage stays the tasks of the stage in the order they were added. |
| Managers.StageTasks.StepTaskCount | run_helpers.go:26-35 | In whatever order the stages are visited, each task with the step is counted once. |
| Managers.CountSplit | run_helpers.go:26-35 | Visiting one more stage adds exactly the tasks of its list that have the step. |
| Managers.StartCounted | run.go:47-60 | The count is positive exactly if the lifecycle has a task with a start step. |
| Managers.Manager.AddTask | manager.go:67-87 | The branches do what the lifecycle's request does, and on the fields: the task is added to its stage with its options, or its fault is recorded, or the run is asked to end with `ErrAlreadyRunning`. |
| Managers.Manager.AddInitError | run.go:318-335 | No error is ignored, another is recorded before a run, and after asks it to end with `ErrAlreadyRunning` around it. |
| Managers.Manager.Shutdown | manager.go:132-136 | The startup context that had not ended now has the cause `ErrExit`, or without one the empty slot for it does; and that is the lifecycle's request. |
| Managers.Manager.RequestStartupCancel | manager.go:140-148 | The first request wins, whether it is pending or cancels the context. |
| Managers.Manager.ClaimRun | run.go:35-37 | A second run is refused with `ErrAlreadyRunning` and changes nothing. |
| Managers.Manager.ReadRegistry | run.go:47-60 | No error if and only if there are no initialization errors and some added task has a start step; else the only initialization error, or the list of all of them, or `ErrNoStartTask`; as the lifecycle does. |
| Managers.Manager.Publish | run.go:79-89 | The startup context exists, ended if the caller's has, and the pending request is read. |
| Managers.Manager.ApplyPending | run.go:94-98 | The pending request ends the startup context before the first stage. |
| Managers.Manager.RunStageStep | run.go:402-427 | The loop over the tasks of a stage makes the lifecycle's moves from the first to the last check, no check fails, and exactly the tasks whose step is launched then are launched. |
| MultiErrors.MultiErrorBuilder.Add | util.go:89-100 | Appends the error, the parts of a list one by one, and nothing for none. |
| MultiErrors.MultiErrorBuilder.Build | util.go:102-117 | Builds none, the only error, or a list in a slice of its own. |
| MultiErrors.BuildThenAdd | util.go:108-117 | An error that was built is not changed by a later addition. |
| MultiErrors.BuiltIsFlattened | util.go:89-117 | Adding a built error elsewhere gives its errors back exactly unless it is one single list. |
| MultiErrors.NothingCollected | util.go:83-117 | A built error is missing exactly when only missing errors and empty lists were added. |
| Futures.Latch.Done | future.go:145-153 | Makes the channel once and returns the same one from then on, closed exactly if resolved. |
| Futures.Latch.Release | future.go:173-178 | Closes the channel, or takes the shared closed one, and never closes a closed channel. |
| Futures.Future.Resolve | future.go:106-116 | The first resolution stores exactly the value, or the error over the zero value; a later one panics and leaves both alone. |
| Futures.Future.Poll | future.go:75-83 | Without waiting, the value and error if resolved. |
| Futures.Future.Wait | future.go:85-99 | A wait ends with the value and error, or with the error of the context. |
| Futures.FirstDecides | future.go:155-179 | In any sequence of calls the first resolution decides what is read from then on: its value without an error, or the zero value with its error. |
| Futures.Drive | future.go:139-179 | For every sequence of calls the lazy latch behaves as a cell set once: same reads, same panics, one channel only, closed exactly when the cell is set. |
| Builds.NoErrorIffGood | build.go:209-242 | For every chain whose parents did not change: no initialization error if and only if all callbacks are given, the bottom has a step or is an error-free task that lists no step twice, and no step is in two levels. |
| Builds.Dispatch | build.go:153-169 | Then every step of every level is told of, belongs to no other level, and a call reaches that level's callback, never a nil one. |
| Builds.RejectsOthers | build.go:159-168 | Any other step is rejected as invalid before it reaches a callback. |
| Builds.InitErrorIs | build.go:209-242 | With errors.Is, the initialization error is exactly: `ErrNilTask` if a callback is nil or there is neither callback nor parent, `ErrDuplicateStep` if a step is there twice, and what the parent's is. |
| Builds.RejectsShared | build.go:153-169 | A step that is both a callback's and the parent's is rejected with `ErrDuplicateStep`, which the task tells in its initialization error too. |
| Builds.ChainSteps | build.go:215-226 | The steps a chain tells of are those of its levels, none twice. |
| Builds.InfoOfChain | build.go:128-151 | Along a chain options are applied bottom first, skipped callbacks called top first, and the first name from the top is used; steps and error are those of the top. |
| Builds.LastOptionWins | build.go:36-97 | The last callback given for a step, the last parent and the last name are the ones used. |
| Builds.OnlyGivenSteps | build.go:36-97 | A task has a step of its own only if an option gave it. |
| Builds.OptionsAddUp | build.go:36-97 | Options and skipped callbacks given in parts are kept one after the other. |
| Builds.OneGiven | build.go:36-97 | A given skipped callback is kept, a nil one is left out, given options are kept, and other options give neither. |
| Builds.StaleSteps | build.go:236-241 | Why parents must not change: a chain that still tells of a step which is rejected. |
| Builds.BuildTask.constructor | build.go:117-126 | The options are applied in order, and what is computed is up to date. |
| Builds.BuildTask.Init | build.go:209-242 | The loop merges the steps of the parent, collects duplicates, and keeps steps and error as computed from the callbacks and the parent. |
| Builds.BuildTask.HasMissingStep | build.go:196-206 | A callback is nil, or there is neither a callback nor a parent. |
| Builds.BuildTask.SetParent | build.go:178-185 | Another parent, and steps and error computed anew. |
| Builds.BuildTask.RunStep | build.go:153-169 | Calls on objects dispatch as on the chain they form now. |
| Builds.BuildTask.TaskInfo | build.go:128-151 | The information of objects is that of the chain they form now. |
| InstanceTasks.InstanceTask.constructor | instancetask/build.go:17-51 | In whatever order the steps are visited, the built task has exactly the setup and the steps given, and the other options. |
| InstanceTasks.InstanceTask.TaskData | instancetask/build.go:73-80 | No error if and only if some call of the setup function succeeded, and then the data is what that call returned; before that, `ErrNotInitialized`. |
| InstanceTasks.InstanceTask.RunSetup | instancetask/build.go:82-99 | The setup function is called until it succeeds once, and its data is kept; a later setup fails and keeps it; data that is a task becomes the parent, and data that is not is an error. Data, error and steps are those of the lifecycle's return. |
| InstanceTasks.Provider | instancetask/provider.go:12-15 | A provided task has only a setup, whose result becomes its parent. |
| InstanceTasks.FutureTask.RunSetup | futuretask/task.go:26-35 | The future is resolved with what the setup function returned, and the setup returns that error, or the parent's, or that there was data; as the lifecycle's return. It panics only if data is not made but the future resolved. |
| InstanceTasks.FutureTask.Skipped | futuretask/task.go:35-46 | The skipped callback resolves the future with the reason unless it is resolved, and never panics. |
| InstanceTasks.FutureTask.Value | futuretask/task.go:60-66 | Read at once or after waiting: exactly the value the future holds, and an error in which its error, or that of the context that ended the wait, is found; a wait never ends without either. |
| Health.Handler.constructor | health_http/handler.go:165-168 | Without a startup probe the service counts as started. |
| Health.Handler.ServiceStarted | health_http/handler.go:69-71 | Raises the flag as the signal of the starter does in a run of the service. |
| Health.Handler.ServiceTerminating | health_http/handler.go:74-76 | Raises the flag as the signal of the terminator does. |
| Health.Handler.Serve | health_http/handler.go:175-206 | Answers by the flags as they are now; only readiness is ever answered 503. |
| Health.ServiceManager.SetHealthHandler | k8sinit/health.go:11-44 | A missing handler is recorded as `ErrInitialization`, a second one as `ErrAlreadyInitialized`, and neither changes anything else; the first adds the two tasks that the readiness results need, in their stages. |

## Left out

- Step checks of a raw integer outside the four steps: steps are an enumeration here.
- The manager's error callback of a step is one move; in the source its parts could interleave with other goroutines.
- AddTask as a class method is one atomic call; the flag set between its two reads of it is covered in the lifecycle, where a request keeps what it read first.
- Skipped callbacks are called in the manager's own thread and taken as one move each; what other user code they run is left out, as is the loop of `notifyTasksSkipped` as a method.
- The loops of `start` and `shutdown` are program counters of the lifecycle, not methods: between their rounds other goroutines move.
- Task handlers, task and manager callbacks, and the afterRun hooks are identity; beforeRun hooks can only fail, and the context they return is taken as ended by the caller's.
- An error handler may change any error of any step, unless the configuration has none or one that keeps failed setups failed; the content of what it returns is left open.
- Only the setup of a task changes its steps and options, as `WithParentFromSetup` does; a `SetParent` called by other code while a run goes on is not modelled.
- Panics of user callbacks, the Go scheduler's fairness and real time: a task may stay in its own code forever, time is a counter.
- The option `WithCancelContext`, and which context a step is called with: the task decides what to do with it.
- Context values, loggers, log output, task names and descriptions in messages.
- Cancels that the source defers to the end of a run or goroutine, apart from those of the start step manager: nothing reads them afterwards.
- Each task is added once: a task value added twice would share its data between two wrappers.
- What the start step does with a cancelled context: the task decides when it returns.
- HTTP servers, request routing, signal and timeout tasks, services and telemetry: arbitrary tasks, or plumbing.
- Text of error messages: an error is its sentinel, or the errors it wraps in order.
