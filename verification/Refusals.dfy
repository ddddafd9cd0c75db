/** Runs that return before their first stage: exactly which ones do, and with which error. */
module Refusals {
  import opened Errors
  import opened Steps
  import opened Lifecycle
  import opened TaskInvariant
  import opened Invariant
  import opened History
  import opened Order
  import opened Cancels
  import opened Causes
  import opened Outcomes
  import opened Liveness
  import opened Stops
  import opened Skips
  import opened AllRuns
  import opened Registration

  /** A task was added with a start step. */
  predicate StartGiven(s: State) { exists t :: 0 <= t < |s.tasks| && Start in s.tasks[t].spec.steps }

  /** One error stands for itself, several for a list of all of them in order. */
  predicate AllOf(cause: Option<Err>, errors: seq<Err>) {
    && cause.Some? && errors != []
    && (|errors| == 1 ==> cause.value == errors[0])
    && (|errors| > 1 ==> cause.value == Multi(errors))
  }

  /** Why a run that has read its tasks returns early, or does not. */
  predicate RefusalOK(s: State) {
    Read(s.pc) ==>
      && (s.reg.initErrors != [] ==> EarlyExit(s.pc) && AllOf(s.cause, s.reg.initErrors))
      && (s.reg.initErrors == [] && !StartGiven(s) ==> EarlyExit(s.pc) && s.cause == Some(ErrNoStartTask))
      && (s.reg.initErrors == [] && StartGiven(s) && EarlyExit(s.pc) ==> s.cfg.beforeRun)
  }

  /** Before the first stage the tasks have the steps they were added with. */
  lemma UntouchedSteps(s: State, t: nat)
    requires Inv(s) && s.pc.Claimed? && t < |s.tasks|
    ensures s.tasks[t].has == s.tasks[t].spec.steps
  {
    hide TaskOK;
    TaskHolds(s, t);
    UntouchedTask(s.tasks[t], ViewOf(s, t), Escaped(s), s.cfg.errorHandler);
  }

  lemma UntouchedTask(task: Task, v: View, esc: bool, eh: ErrorHandler)
    requires TaskOK(task, v, esc, eh) && v.setup == 0
    ensures task.has == task.spec.steps
  {
  }

  lemma ReadRefuses(s: State)
    requires Inv(s) && ValidConfig(s.cfg) && Enabled(s, ReadRegistry)
    ensures RefusalOK(Apply(s, ReadRegistry))
  {
    hide Inv;
    forall t | 0 <= t < |s.tasks|
      ensures s.tasks[t].has == s.tasks[t].spec.steps
    {
      UntouchedSteps(s, t);
    }
  }

  lemma SameRefusal(s: State, s': State)
    requires RefusalOK(s) && Read(s.pc) && SameRegistry(s, s') && s'.cfg == s.cfg
    requires EarlyExit(s.pc) ==> EarlyExit(s'.pc) && s'.cause == s.cause
    requires EarlyExit(s'.pc) ==> EarlyExit(s.pc) || s.cfg.beforeRun
    ensures RefusalOK(s')
  {
    hide AllOf;
    assert StartGiven(s) <==> StartGiven(s');
  }

  lemma HooksShape(s: State, err: Option<Err>)
    requires ValidConfig(s.cfg) && Enabled(s, RunHooks(err))
    ensures !EarlyExit(s.pc) && (EarlyExit(Apply(s, RunHooks(err)).pc) <==> err.Some?)
    ensures err.Some? ==> s.cfg.beforeRun && Apply(s, RunHooks(err)).cause == err
  {
  }

  /** Only a hook makes a run that has read its tasks return early. */
  lemma EarlyKept(s: State, a: Action)
    requires Inv(s) && ValidConfig(s.cfg) && Enabled(s, a) && Read(s.pc)
    ensures EarlyExit(s.pc) ==> EarlyExit(Apply(s, a).pc) && Apply(s, a).cause == s.cause
    ensures EarlyExit(Apply(s, a).pc) ==> EarlyExit(s.pc) || s.cfg.beforeRun
  {
    assert !a.ReadRegistry?;
    hide Inv, Enabled;
    if a.CheckNext? { hide Apply; CheckedShape(s); }
    else if a.RunHooks? { hide Apply; HooksShape(s, a.err); }
    else if Starts(a) { StartsShape(s, a); ContextShape(s, a); }
    else if IsManager(a) { hide Apply; ManagerShape(s, a); }
    else { hide Apply; BystanderShape(s, a); }
  }

  lemma ContextShape(s: State, a: Action)
    requires ValidConfig(s.cfg) && Enabled(s, a) && (a.Publish? || a.ApplyPending?)
    ensures !EarlyExit(Apply(s, a).pc)
  {
  }

  lemma StepRefusal(s: State, a: Action)
    requires RunOK(s) && RefusalOK(s) && Enabled(s, a)
    ensures ValidConfig(s.cfg) && RefusalOK(Apply(s, a))
  {
    RunParts(s);
    hide RunOK, Inv, Apply, Enabled, RefusalOK;
    if Read(s.pc) {
      OneFrozen(s, a);
      ConfigKept(s, a);
      EarlyKept(s, a);
      SameRefusal(s, Apply(s, a));
    } else if a.ReadRegistry? {
      ReadRefuses(s);
    } else {
      NotRead(s, a);
    }
  }

  lemma OneFrozen(s: State, a: Action)
    requires RunOK(s) && ValidConfig(s.cfg) && Enabled(s, a) && Read(s.pc)
    ensures SameRegistry(s, Apply(s, a))
  {
    hide RunOK, Apply, Enabled;
    PathNil(Apply(s, a));
    PathCons(s, a, [], Apply(s, a));
    assert [a] + [] == [a];
    RegistryFrozenFrom(s, [a], Apply(s, a));
  }

  lemma NotRead(s: State, a: Action)
    requires Inv(s) && ValidConfig(s.cfg) && Enabled(s, a) && !Read(s.pc) && !a.ReadRegistry?
    ensures RefusalOK(Apply(s, a))
  {
    hide Inv;
    if !IsManager(a) {
      hide Apply, Enabled;
      BystanderShape(s, a);
    }
  }

  lemma {:induction false} RefusalFrom(s: State, acts: seq<Action>, s': State)
    requires RunOK(s) && RefusalOK(s) && Path(s, acts, s')
    ensures RefusalOK(s')
    decreases |acts|
  {
    hide RunOK, RefusalOK, Apply, Enabled;
    if acts != [] {
      StepRefusal(s, acts[0]);
      StepRun(s, acts[0]);
      RefusalFrom(Apply(s, acts[0]), acts[1..], s');
    }
  }

  lemma ReachableRefusal(s: State)
    requires Reachable(s)
    ensures RefusalOK(s)
  {
    hide RunOK, Apply, Enabled;
    var acts :| ValidConfig(s.cfg) && Path(Init(s.cfg), acts, s);
    InitRun(s.cfg);
    RefusalFrom(Init(s.cfg), acts, s);
  }

  // ---------- what the caller sees ----------

  /** A run that enters no stage: no step of any task is checked, called or left. */
  lemma EarlyRunsNothing(s: State)
    requires Inv(s) && Linked(s) && EarlyExit(s.pc)
    ensures s.ran == 0 && forall e :: e in s.hist ==> e.SkipE?
  {
    assert s.ran == 0 by { hide TasksOK; }
    assert s.ctx.shut == None by { hide TasksOK; }
    forall e | e in s.hist
      ensures e.SkipE?
    {
      assert Happened(s, e);
      if !e.ShutE? {
        assert e.task < |s.tasks|;
        TaskHolds(s, e.task);
        EarlyView(s, e.task);
        hide TaskOK, Inv, Linked;
        EarlyTask(s.tasks[e.task], ViewOf(s, e.task), Escaped(s), s.cfg.errorHandler);
      }
    }
  }

  lemma EarlyView(s: State, t: nat)
    requires Inv(s) && EarlyExit(s.pc) && t < |s.tasks|
    ensures var v := ViewOf(s, t); v.setup == 0 && v.start == 0 && v.stop == 0 && v.down == 0
  {
    hide TasksOK;
  }

  lemma EarlyTask(task: Task, v: View, esc: bool, eh: ErrorHandler)
    requires TaskOK(task, v, esc, eh) && v.setup == 0 && v.start == 0 && v.stop == 0 && v.down == 0
    ensures forall step: Step :: PhaseOf(task, step) == Idle
  {
  }

  /**
   * A run with initialization errors, or without a task that has a start step, runs nothing. It returns all its
   * initialization errors, in their order, or else `ErrNoStartTask`.
   */
  lemma RefusedRun(s: State)
    requires Reachable(s) && Read(s.pc) && (s.reg.initErrors != [] || !StartGiven(s))
    ensures EarlyExit(s.pc) && s.ran == 0 && forall e :: e in s.hist ==> e.SkipE?
    ensures s.reg.initErrors == [] ==> s.cause == Some(ErrNoStartTask)
    ensures s.reg.initErrors != [] ==> AllOf(s.cause, s.reg.initErrors)
    ensures s.reg.initErrors != [] ==> forall e :: e in s.reg.initErrors ==> Is(s.cause.value, e)
    ensures s.pc.Done? ==> s.out == Some(Result(s.cause, None))
  {
    hide Reachable, Inv, AllOf, StartGiven;
    ReachableRefusal(s);
    if s.reg.initErrors != [] { AllFound(s.cause, s.reg.initErrors); }
    assert Linked(s) by { hide NoRepeat, Ordered, StopsOK, SkipsOK; ReachableHistory(s); }
    ReachableCauses(s);
    hide CausesOK, CancelsOK, ReasonOK, CountOK, OrdinaryOK, Linked;
    assert EarlyExit(s.pc);
    EarlyRunsNothing(s);
  }

  lemma AllFound(cause: Option<Err>, errors: seq<Err>)
    requires AllOf(cause, errors)
    ensures forall e :: e in errors ==> Is(cause.value, e)
  {
  }

  /** Only such a run, or one that a hook refused, returns without entering a stage. */
  lemma EnteredExactly(s: State)
    requires Reachable(s) && s.pc.Done?
    ensures s.pc.early <==> s.ran == 0
    ensures !s.pc.early ==> s.reg.initErrors == [] && StartGiven(s)
    ensures s.pc.early && s.reg.initErrors == [] && StartGiven(s) ==> s.cfg.beforeRun
  {
    hide Reachable, AllOf, StartGiven;
    ReachableRefusal(s);
    assert s.pc.early <==> s.ran == 0 by {
      hide Linked, NoRepeat, Ordered, StopsOK, SkipsOK, TasksOK;
      ReachableHistory(s);
    }
  }

  lemma {:induction false} EarlyFrom(s: State, acts: seq<Action>, s': State)
    requires RunOK(s) && EarlyExit(s.pc) && Path(s, acts, s')
    ensures EarlyExit(s'.pc) && s'.cause == s.cause && RunOK(s')
    decreases |acts|
  {
    hide RunOK, Apply, Enabled;
    if acts != [] {
      RunParts(s);
      StepRun(s, acts[0]);
      EarlyKept(s, acts[0]);
      EarlyFrom(Apply(s, acts[0]), acts[1..], s');
    }
  }

  /** When a hook fails, nothing runs either, and the run returns the error of the hook. */
  lemma HookRefuses(s: State, err: Err, acts: seq<Action>, s': State)
    requires Reachable(s) && ValidConfig(s.cfg) && Enabled(s, RunHooks(Some(err)))
    requires Path(Apply(s, RunHooks(Some(err))), acts, s')
    ensures s.reg.initErrors == [] && StartGiven(s)
    ensures s'.ran == 0 && (forall e :: e in s'.hist ==> e.SkipE?) && s'.cause == Some(err)
    ensures s'.pc.Done? ==> s'.out == Some(Result(Some(err), None))
  {
    var hook := RunHooks(Some(err));
    assert !EarlyExit(s.pc) && Read(s.pc);
    hide Reachable, RunOK, Enabled, Path, Apply;
    ReachableRefusal(s);
    ReachableRun(s);
    HooksShape(s, Some(err));
    StepRun(s, hook);
    EarlyFrom(Apply(s, hook), acts, s');
    hide RefusalOK;
    RunParts(s');
    RunResult(s');
    hide Inv, Linked, OutOK;
    EarlyRunsNothing(s');
    assert s'.pc.Done? ==> s'.pc == Done(true);
    assert OutOK(s');
  }

  lemma RunResult(s: State)
    requires RunOK(s)
    ensures OutOK(s)
  {
    hide Inv;
  }
}
