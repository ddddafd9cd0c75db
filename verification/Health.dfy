/** The health handler, and how a service registers it. */
module Health {
  import opened Errors
  import opened Steps
  import opened Lifecycle
  import opened TaskWrappers
  import opened Managers
  import opened Readiness

  class Handler {
    const startupProbe: bool
    var isStarted: bool
    var isTerminating: bool

    /** Without a startup probe the service counts as started from the beginning. */
    constructor (startupProbe: bool)
      ensures this.startupProbe == startupProbe && Now() == Status(!startupProbe, false)
    {
      this.startupProbe := startupProbe;
      isStarted, isTerminating := !startupProbe, false;
    }

    function Now(): Status
      reads this
    {
      Status(isStarted, isTerminating)
    }

    method ServiceStarted()
      modifies this`isStarted
      ensures isStarted && Now() == AfterSignal(old(Now()), SignalStarted)
    {
      isStarted := true;
    }

    method ServiceTerminating()
      modifies this`isTerminating
      ensures isTerminating && Now() == AfterSignal(old(Now()), SignalTerminating)
    {
      isTerminating := true;
    }

    /** The answer of the default probe handler. */
    method Serve(probe: Probe) returns (code: nat)
      ensures code == DefaultAnswer(probe, Now())
      ensures code == OK || code == PRECONDITION_FAILED || (code == SERVICE_UNAVAILABLE && probe == Readiness)
    {
      if probe == Liveness { return OK; }
      if !isStarted { return PRECONDITION_FAILED; }
      if probe == Readiness && isTerminating { return SERVICE_UNAVAILABLE; }
      code := OK;
    }
  }

  const STAGES := ["management", "initialize", "ready", "service"]

  lemma StagesAreGood()
    ensures GoodStages(STAGES) && IndexOf(STAGES, "ready") == READY_STAGE && IndexOf(STAGES, "service") == SERVICE_STAGE
  {
    assert STAGES[2] == "ready" && STAGES[3] == "service";
    assert |STAGES[0]| == 10 && |STAGES[1]| == 10 && |STAGES[2]| == 5 && |STAGES[3]| == 7;
    assert STAGES[0][0] != STAGES[1][0];
  }

  lemma OneStep(step: Step)
    ensures StepSet(Some([step])) == {step}
  {
  }

  /** A good task that is added before the run comes last. */
  lemma Accepted(s: State, add: AddRequest)
    requires s.pc.Fresh? && add.GoodTask?
    ensures Serve(s, Holder(Request.AddTask(add), IsRunning(s))) == s.(tasks := s.tasks + [NewTask(add.spec)])
    ensures NewTask(add.spec).spec == add.spec
  {
  }

  class ServiceManager {
    const manager: Manager
    var healthHandler: Handler?
    var healthHandlerSet: bool

    ghost predicate Is(s: State)
      reads this, manager, manager.tasks, manager.startupCtx, Wrappers(manager.tasks.added),
            AddedInfos(manager.tasks.added), Finishes(manager.tasks.added)
    {
      manager.Is(s) && manager.stages == STAGES
    }

    constructor (ghost cfg: Config)
      requires cfg.stages == 4
      ensures Is(Init(cfg)) && !healthHandlerSet && fresh(manager) && fresh(manager.tasks)
    {
      StagesAreGood();
      manager := new Manager(STAGES, cfg);
      healthHandler, healthHandlerSet := null, false;
    }

    /**
     * Registers the handler, once: a missing or a second handler is an initialization error. Before the run, it adds
     * the two tasks that signal the probes, in the ready and in the service stage.
     */
    method SetHealthHandler(handler: Handler?, options: seq<TaskOption>, ghost s: State) returns (ghost s': State)
      requires Is(s) && s.pc.Fresh?
      modifies this`healthHandler, this`healthHandlerSet
      modifies manager`pendingStartupCancel, manager`initErrors, manager.startupCtx, manager.tasks
      ensures Is(s') && s'.pc.Fresh? && s'.hist == s.hist && s'.cfg == s.cfg
      ensures handler == null || old(healthHandlerSet) ==>
                && |s'.reg.initErrors| == |s.reg.initErrors| + 1 && s.reg.initErrors <= s'.reg.initErrors
                && Errors.Is(s'.reg.initErrors[|s.reg.initErrors|],
                             if handler == null then ErrInitialization else ErrAlreadyInitialized)
                && s'.tasks == s.tasks
                && healthHandlerSet == old(healthHandlerSet) && healthHandler == old(healthHandler)
      ensures handler != null && !old(healthHandlerSet) ==>
                && s'.reg == s.reg && healthHandlerSet && healthHandler == handler && |s'.tasks| == |s.tasks| + 2
                && Wired(s', Signals(handler.startupProbe, |s.tasks|, |s.tasks| + 1))
    {
      if handler == null {
        SingleIs(ErrInitialization);
        s' := Refuse(Wrapped([ErrInitialization]), s);
        return;
      }
      if healthHandlerSet {
        SingleIs(ErrAlreadyInitialized);
        s' := Refuse(Wrapped([ErrAlreadyInitialized]), s);
        return;
      }
      healthHandler, healthHandlerSet := handler, true;
      assert Is(s);
      hide AreTasks, Wired;
      s' := AddSignals(handler.startupProbe, options, s);
    }

    /** The task that signals the start, and the one that signals the end. */
    method AddSignals(startupProbe: bool, options: seq<TaskOption>, ghost s: State) returns (ghost s': State)
      requires Is(s) && s.pc.Fresh?
      modifies manager`pendingStartupCancel, manager`initErrors, manager.startupCtx, manager.tasks
      ensures Is(s') && |s'.tasks| == |s.tasks| + 2 && s' == s.(tasks := s'.tasks)
      ensures Wired(s', Signals(startupProbe, |s.tasks|, |s.tasks| + 1))
    {
      hide AreTasks;
      StagesAreGood();
      s' := AddSignal("ready", Setup, options, s);
      s' := AddSignal("service", Stop, options, s');
    }

    method Refuse(err: Err, ghost s: State) returns (ghost s': State)
      requires Is(s) && s.pc.Fresh?
      modifies manager`pendingStartupCancel, manager`initErrors, manager.startupCtx
      ensures Is(s') && s' == s.(reg := s.reg.(initErrors := s.reg.initErrors + [err]))
    {
      manager.AddInitError(Some(err), s, false);
      s' := Serve(s, Holder(Request.AddInitError(err), false));
    }

    /** Adds a task with one step, which signals the probes. */
    method AddSignal(stage: string, step: Step, options: seq<TaskOption>, ghost s: State) returns (ghost s': State)
      requires Is(s) && s.pc.Fresh? && stage in STAGES
      modifies manager`pendingStartupCancel, manager`initErrors, manager.startupCtx, manager.tasks
      ensures Is(s') && |s'.tasks| == |s.tasks| + 1 && s' == s.(tasks := s'.tasks) && s.tasks == s'.tasks[..|s.tasks|]
      ensures var spec := s'.tasks[|s.tasks|].spec;
        spec == Spec(IndexOf(STAGES, stage), Plain, false, {step}, spec.ssm)
    {
      hide StepSet, ApplyAll, Serve, NewTask;
      var info := new TaskInfo(Some([step]), []);
      assert manager.Is(s);
      hide AreTasks;
      ghost var add := manager.AddOf(stage, info, None, options, Plain, false);
      OneStep(step);
      Accepted(s, add);
      manager.AddTask(stage, info, None, options, Plain, false, s);
      s' := Serve(s, Holder(Request.AddTask(add), IsRunning(s)));
    }
  }
}
