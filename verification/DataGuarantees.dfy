/** What the plug-ins can rely on: futures, instance tasks, and start step managers. */
module DataGuarantees {
  import opened Errors
  import opened Steps
  import opened Lifecycle
  import opened TaskInvariant
  import opened Invariant
  import opened History
  import opened Order
  import opened Skips
  import opened Causes
  import opened Outcomes
  import opened Stops
  import opened AllRuns

  /** Any future: resolved at most once, and with what its setup made or why its task never ran. */
  lemma FutureTaskHolds(task: Task, v: View, esc: bool, eh: ErrorHandler)
    requires TaskOK(task, v, esc, eh) && task.spec.kind == Future
    ensures |task.cell| <= 1
    ensures v.setup >= 2 || v.skipped ==> |task.cell| == 1
    ensures v.setup >= 2 ==>
              && task.setup.Finished?
              && (task.data.Some? ==> task.cell == [Value(task.data.value)])
              && (task.data == None && eh == NoHandler ==>
                    task.setup.err.Some? && task.cell == [Failure(task.setup.err.value)])
  {
  }

  /** A future is never resolved twice: the panic of a second resolution is not reached. */
  lemma NeverResolvedTwice(s: State, t: nat)
    requires Reachable(s) && t < |s.tasks| && s.tasks[t].spec.kind == Future
    ensures |s.tasks[t].cell| <= 1
  {
    hide Reachable, Linked, NoRepeat, Ordered, StopsOK, SkipsOK, Inv, ViewOf, TaskOK;
    ReachableHistory(s);
    TaskHolds(s, t);
    FutureTaskHolds(s.tasks[t], ViewOf(s, t), Escaped(s), s.cfg.errorHandler);
  }

  /** The walk forward is over and its last task was told: the run waits, shuts down, or returned. */
  predicate WalkedForward(pc: PC) { pc.Selecting? || ShutOpen(pc) || pc.Done? }

  /**
   * When the run waits for its first task, and so before any stop step begins, and when it returns in any way, each
   * future is resolved exactly once: with the value its setup made, with the error its setup failed with, or with
   * `ErrTaskSkipped` around the reason why its task never runs.
   */
  lemma FutureResolved(s: State, t: nat)
    requires Reachable(s) && t < |s.tasks| && s.tasks[t].spec.kind == Future && WalkedForward(s.pc)
    ensures |s.tasks[t].cell| == 1
    ensures StageOf(s, t) < s.ran && s.tasks[t].data.Some? ==> s.tasks[t].cell == [Value(s.tasks[t].data.value)]
    ensures StageOf(s, t) < s.ran && s.tasks[t].data == None && s.cfg.errorHandler == NoHandler ==>
              s.tasks[t].setup.Finished? && s.tasks[t].setup.err.Some? &&
              s.tasks[t].cell == [Failure(s.tasks[t].setup.err.value)]
    ensures StageOf(s, t) >= s.ran ==>
              s.tasks[t].cell == [Failure(SkippedError(if s.pc == Done(true) then s.cause else s.failed))]
    ensures StageOf(s, t) >= s.ran ==> Is(s.tasks[t].cell[0].err, ErrTaskSkipped)
    ensures StageOf(s, t) >= s.ran && s.pc == Done(true) ==> s.cause.Some? && Is(s.tasks[t].cell[0].err, s.cause.value)
    ensures StageOf(s, t) >= s.ran && s.failed.Some? ==> Is(s.tasks[t].cell[0].err, s.failed.value)
  {
    SkippedIs(if s.pc == Done(true) then s.cause else s.failed);
    assert s.pc == Done(true) ==> s.cause.Some? && s.failed == None by {
      hide Linked, NoRepeat, Ordered, StopsOK, SkipsOK, TasksOK, CausesOK;
      ReachableCauses(s);
    }
    hide Reachable, Linked, NoRepeat, Ordered, StopsOK, Inv, ViewOf, TaskOK;
    ReachableHistory(s);
    TaskHolds(s, t);
    SettledView(s, t);
    FutureTaskHolds(s.tasks[t], ViewOf(s, t), Escaped(s), s.cfg.errorHandler);
  }

  lemma SkippedIs(cause: Option<Err>)
    ensures Is(SkippedError(cause), ErrTaskSkipped)
    ensures cause.Some? ==> Is(SkippedError(cause), cause.value)
  {
    if cause.Some? { PairIs(ErrTaskSkipped, cause.value); }
  }

  lemma SettledView(s: State, t: nat)
    requires Inv(s) && t < |s.tasks| && WalkedForward(s.pc)
    ensures if StageOf(s, t) < s.ran then ViewOf(s, t).setup >= 2 else ViewOf(s, t).skipped
  {
    hide TasksOK, FailuresOK, LockOK;
  }

  /** No stop step was entered while a future was not resolved. */
  lemma ResolvedBeforeStop(s: State, t: nat, u: nat)
    requires Reachable(s) && t < |s.tasks| && s.tasks[t].spec.kind == Future && CallE(u, Stop) in s.hist
    ensures |s.tasks[t].cell| == 1
  {
    assert WalkedForward(s.pc) by {
      hide Reachable, NoRepeat, Ordered, StopsOK, SkipsOK;
      ReachableHistory(s);
      StopCalledLate(s, u);
    }
    hide Reachable;
    FutureResolved(s, t);
  }

  lemma StopCalledLate(s: State, u: nat)
    requires Inv(s) && Linked(s) && CallE(u, Stop) in s.hist
    ensures WalkedForward(s.pc)
  {
    assert Happened(s, CallE(u, Stop));
    hide TaskOK;
    TaskHolds(s, u);
    StopCalledView(s.tasks[u], ViewOf(s, u), Escaped(s), s.cfg.errorHandler);
  }

  lemma StopCalledView(task: Task, v: View, esc: bool, eh: ErrorHandler)
    requires TaskOK(task, v, esc, eh) && Called(task.stop)
    ensures v.stop >= 1
  {
  }

  // ---------- instance tasks ----------

  lemma InstanceTaskHolds(task: Task, v: View, esc: bool, eh: ErrorHandler)
    requires TaskOK(task, v, esc, eh) && task.spec.kind != Plain
    ensures forall i :: 0 <= i < |task.got| ==> task.got[i].data == task.data
    ensures forall step :: step != Setup && Called(PhaseOf(task, step)) ==> Reading(step, task.data) in task.got
    ensures task.got != [] && eh != AnyHandler ==> task.data.Some? && OverWith(task.setup, None)
    ensures !Over(task.setup) ==> task.data == None
  {
  }

  /**
   * Unless an error handler may hide that a setup failed, every start, stop and teardown call of an instance task is
   * given the data made by its setup, which succeeded before: the error of missing data is not reached.
   */
  lemma InstanceData(s: State, t: nat, step: Step)
    requires Reachable(s) && s.cfg.errorHandler != AnyHandler && t < |s.tasks|
    requires s.tasks[t].spec.kind != Plain && step != Setup && CallE(t, step) in s.hist
    ensures s.tasks[t].data.Some? && OverWith(s.tasks[t].setup, None)
    ensures Reading(step, s.tasks[t].data) in s.tasks[t].got
    ensures forall i :: 0 <= i < |s.tasks[t].got| ==> s.tasks[t].got[i].data == s.tasks[t].data
  {
    hide Reachable, NoRepeat, Ordered, StopsOK, SkipsOK, Inv, ViewOf, TaskOK;
    ReachableHistory(s);
    assert Happened(s, CallE(t, step));
    TaskHolds(s, t);
    InstanceTaskHolds(s.tasks[t], ViewOf(s, t), Escaped(s), s.cfg.errorHandler);
  }

  /** A setup is called before there is data: the error of a second initialization is not reached. */
  lemma NeverInitializedTwice(s: State, t: nat, out: Outcome)
    requires Reachable(s) && Enabled(s, TaskReturn(t, Setup, out))
    ensures !Remade(s.tasks[t], Setup)
  {
    hide Reachable, Linked, NoRepeat, Ordered, StopsOK, SkipsOK, Inv, ViewOf, TaskOK;
    ReachableHistory(s);
    TaskHolds(s, t);
    if s.tasks[t].spec.kind != Plain {
      InstanceTaskHolds(s.tasks[t], ViewOf(s, t), Escaped(s), s.cfg.errorHandler);
    }
  }

  lemma DataStays(s: State, a: Action, t: nat)
    requires Inv(s) && ValidConfig(s.cfg) && Enabled(s, a) && t < |s.tasks| && s.tasks[t].data.Some?
    ensures t < |Apply(s, a).tasks| && Apply(s, a).tasks[t].data == s.tasks[t].data
  {
    hide Inv;
    if IsGoroutine(a) || a.TaskReturn? {
      hide Apply, Enabled;
      MoveParts(s, a);
      MoveKeepsSpec(s, a);
    } else if a.CheckNext? {
      hide InvalidOrder, CheckTask, DoCheckNext;
      CheckShape(s);
      CheckData(s.tasks[s.pc.next], s.pc.step);
    } else if a.Notify? {
      hide SkipTask;
      if s.pc.next < |s.tasks| { SkipData(s.tasks[s.pc.next], SkipCause(s, s.pc.early)); }
    } else {
      hide Apply, Enabled;
      if IsManager(a) { ManagerKeepsTasks(s, a); } else { CallerShape(s, a); }
    }
  }

  lemma {:induction false} DataNeverChangesFrom(s: State, acts: seq<Action>, s': State, t: nat)
    requires RunOK(s) && Path(s, acts, s') && t < |s.tasks| && s.tasks[t].data.Some?
    ensures t < |s'.tasks| && s'.tasks[t].data == s.tasks[t].data
    decreases |acts|
  {
    hide RunOK, Inv, Apply, Enabled;
    if acts != [] {
      RunParts(s);
      StepRun(s, acts[0]);
      DataStays(s, acts[0], t);
      DataNeverChangesFrom(Apply(s, acts[0]), acts[1..], s', t);
    }
  }

  /** Once made, the data of a task does not change. */
  lemma DataNeverChanges(s: State, acts: seq<Action>, s': State, t: nat)
    requires Reachable(s) && Path(s, acts, s') && t < |s.tasks| && s.tasks[t].data.Some?
    ensures t < |s'.tasks| && s'.tasks[t].data == s.tasks[t].data
  {
    hide Reachable, RunOK;
    ReachableRun(s);
    DataNeverChangesFrom(s, acts, s', t);
  }

  // ---------- what a setup makes ----------

  /** The setup returned, and if the task has a future that is resolved. */
  predicate SetUp(task: Task) { Over(task.setup) && (task.spec.kind == Future ==> task.cell != []) }

  predicate SameMade(task: Task, task': Task) {
    task'.spec == task.spec && task'.data == task.data && task'.cell == task.cell && Over(task'.setup)
  }

  lemma MoveKeepsMade(s: State, a: Action)
    requires ValidConfig(s.cfg) && Enabled(s, a) && (IsGoroutine(a) || a.TaskReturn?)
    requires a.task < |s.tasks| && SetUp(s.tasks[a.task])
    ensures a.task < |Apply(s, a).tasks| && SameMade(s.tasks[a.task], Apply(s, a).tasks[a.task])
  {
    var task := s.tasks[a.task];
    assert PhaseOf(task, Setup) == task.setup;
    assert a.TaskReturn? ==> a.step != Setup by { hide Plausible; }
    if a.Report? {
      hide WithPhase, DoReport;
      ReportShape(s, a.task, a.step);
      PhasePhases(task, a.step, Reported(PhaseOf(task, a.step).err));
      assert PhaseOf(Apply(s, a).tasks[a.task], Setup) == Apply(s, a).tasks[a.task].setup;
    } else {
      assert a.Prepare? ==> PhaseOf(task, a.step) == Launched;
      assert a.Begin? ==> PhaseOf(task, a.step) == Ready;
      hide Apply, Enabled, PhaseOf;
      MoveShape(s, a);
      SetupPhase(Apply(s, a).tasks[a.task]);
    }
  }

  lemma SetupPhase(task: Task)
    ensures PhaseOf(task, Setup) == task.setup
  {
  }

  lemma CheckKeepsMade(task: Task, step: Step)
    requires SetUp(task) && PhaseOf(task, step) == Idle
    ensures SameMade(task, CheckTask(task, step))
  {
  }

  lemma SkipKeepsMade(task: Task, cause: Option<Err>)
    requires SetUp(task)
    ensures SameMade(task, SkipTask(task, cause))
  {
  }

  lemma MadeStays(s: State, a: Action, t: nat)
    requires Inv(s) && ValidConfig(s.cfg) && Enabled(s, a) && t < |s.tasks| && SetUp(s.tasks[t])
    ensures t < |Apply(s, a).tasks| && SameMade(s.tasks[t], Apply(s, a).tasks[t])
  {
    hide Inv;
    if IsGoroutine(a) || a.TaskReturn? {
      hide Apply, Enabled, SetUp;
      MoveKeepsSpec(s, a);
      if a.task == t { MoveKeepsMade(s, a); } else { ItselfMade(s.tasks[t]); }
    } else if a.CheckNext? {
      hide InvalidOrder, CheckTask, DoCheckNext;
      CheckShape(s);
      if s.pc.next == t && InStage(s, s.pc.stage, t) {
        CheckNotCalled(s);
        CheckKeepsMade(s.tasks[t], s.pc.step);
      }
    } else if a.Notify? {
      hide SkipTask;
      if s.pc.next == t { SkipKeepsMade(s.tasks[t], SkipCause(s, s.pc.early)); }
    } else {
      hide Apply, Enabled;
      if IsManager(a) { ManagerKeepsTasks(s, a); } else { CallerShape(s, a); }
    }
  }

  lemma ItselfMade(task: Task)
    requires SetUp(task)
    ensures SameMade(task, task)
  {
  }

  lemma {:induction false} MadeStaysFrom(s: State, acts: seq<Action>, s': State, t: nat)
    requires RunOK(s) && Path(s, acts, s') && t < |s.tasks| && SetUp(s.tasks[t])
    ensures t < |s'.tasks| && SameMade(s.tasks[t], s'.tasks[t]) && RunOK(s')
    decreases |acts|
  {
    hide RunOK, Inv, Apply, Enabled;
    if acts != [] {
      RunParts(s);
      StepRun(s, acts[0]);
      MadeStays(s, acts[0], t);
      MadeStaysFrom(Apply(s, acts[0]), acts[1..], s', t);
    }
  }

  /** What the outcome of a setup leaves in its task: the data it made, and the future resolved with it. */
  predicate Keeps(task: Task, out: Outcome) {
    && SetUp(task) && task.data == out.made
    && (task.spec.kind == Future ==>
          if out.made.Some? then task.cell == [Value(out.made.value)]
          else out.raw.Some? && task.cell == [Failure(out.raw.value)])
  }

  lemma ReturnKeeps(cfg: Config, task: Task, out: Outcome)
    requires Plausible(cfg, task, Setup, out) && task.spec.kind != Plain && task.data == None && task.cell == []
    ensures ReturnTask(task, Setup, out).spec == task.spec && Keeps(ReturnTask(task, Setup, out), out)
  {
  }

  lemma ReturnMakes(s: State, t: nat, out: Outcome)
    requires Inv(s) && ValidConfig(s.cfg) && Enabled(s, TaskReturn(t, Setup, out)) && s.tasks[t].spec.kind != Plain
    ensures var task := Apply(s, TaskReturn(t, Setup, out)).tasks[t];
      task.spec == s.tasks[t].spec && Keeps(task, out)
  {
    hide TaskOK, ViewOf, Plausible, ReturnTask, Keeps;
    TaskHolds(s, t);
    hide Inv;
    CallingSetup(s.tasks[t], ViewOf(s, t), Escaped(s), s.cfg.errorHandler);
    ReturnKeeps(s.cfg, s.tasks[t], out);
  }

  lemma CallingSetup(task: Task, v: View, esc: bool, eh: ErrorHandler)
    requires TaskOK(task, v, esc, eh) && task.setup == Calling
    ensures task.data == None && task.cell == []
  {
  }

  /**
   * What the setup of an instance task made is its data for the rest of the run, and just that is what its other steps
   * read whenever they are called. The future of a future task holds it, or the error that the setup returned.
   */
  lemma SetupMakes(s: State, t: nat, out: Outcome, acts: seq<Action>, s': State)
    requires Reachable(s) && ValidConfig(s.cfg) && Enabled(s, TaskReturn(t, Setup, out))
    requires s.tasks[t].spec.kind != Plain && Path(Apply(s, TaskReturn(t, Setup, out)), acts, s')
    ensures t < |s'.tasks| && s'.tasks[t].data == out.made
    ensures forall i :: 0 <= i < |s'.tasks[t].got| ==> s'.tasks[t].got[i].data == out.made
    ensures s'.tasks[t].spec.kind == Future && out.made.Some? ==> s'.tasks[t].cell == [Value(out.made.value)]
    ensures s'.tasks[t].spec.kind == Future && out.made == None ==>
              out.raw.Some? && s'.tasks[t].cell == [Failure(out.raw.value)]
  {
    var back := TaskReturn(t, Setup, out);
    assert t < |s.tasks|;
    hide Reachable, RunOK, Apply, Enabled, Path;
    ReachableRun(s);
    RunParts(s);
    ReturnMakes(s, t, out);
    StepRun(s, back);
    assert t < |Apply(s, back).tasks| by { hide Inv; MoveShape(s, back); }
    MadeStaysFrom(Apply(s, back), acts, s', t);
    RunParts(s');
    hide Inv, Linked, SetUp, TaskOK, ViewOf;
    TaskHolds(s', t);
    InstanceTaskHolds(s'.tasks[t], ViewOf(s', t), Escaped(s'), s'.cfg.errorHandler);
  }

  lemma CheckData(task: Task, step: Step)
    ensures CheckTask(task, step).data == task.data
  {
  }

  lemma SkipData(task: Task, cause: Option<Err>)
    ensures SkipTask(task, cause).data == task.data
  {
  }

  // ---------- start step managers ----------

  /** The channel that a stop step waits on is closed. */
  predicate FinishedClosed(task: Task) { task.finish.Ended? }

  /** The error of the start step, as its stop step reads it. */
  function FinishedErr(task: Task): Option<Err> { if task.finish.Ended? then task.finish.err else None }

  lemma SsmTaskHolds(task: Task, v: View, esc: bool, eh: ErrorHandler)
    requires TaskOK(task, v, esc, eh) && task.ssm
    ensures Called(task.stop) ==> task.saw == Some(Handles(task.start != Idle, task.start != Idle))
    ensures FinishedClosed(task) ==> Over(task.start) && FinishedErr(task) == task.start.err
    ensures task.start.Finished? ==> FinishedClosed(task)
    ensures Called(task.stop) && task.start != Idle ==> !task.finish.NoFinish?
  {
  }

  /**
   * A stop step of a task with a start step manager is given both handles when a start step was launched, and none
   * otherwise. The finished channel is closed only after the start step returned, and carries exactly its error.
   */
  lemma StartStepManager(s: State, t: nat)
    requires Reachable(s) && t < |s.tasks| && s.tasks[t].ssm
    ensures CallE(t, Stop) in s.hist ==>
              s.tasks[t].saw == Some(Handles(s.tasks[t].start != Idle, s.tasks[t].start != Idle))
    ensures FinishedClosed(s.tasks[t]) ==>
              && ReturnE(t, Start) in s.hist && Over(s.tasks[t].start)
              && FinishedErr(s.tasks[t]) == s.tasks[t].start.err
    ensures s.tasks[t].start.Finished? ==> FinishedClosed(s.tasks[t])
  {
    hide Reachable, NoRepeat, Ordered, StopsOK, SkipsOK, Inv, ViewOf, TaskOK;
    ReachableHistory(s);
    TaskHolds(s, t);
    SsmTaskHolds(s.tasks[t], ViewOf(s, t), Escaped(s), s.cfg.errorHandler);
    assert CallE(t, Stop) in s.hist <==> Happened(s, CallE(t, Stop));
    assert ReturnE(t, Start) in s.hist <==> Happened(s, ReturnE(t, Start));
  }
}
