/** Requests that race with a run: each ends in one way, and none that asks the run to end is lost. */
module Registration {
  import opened Errors
  import opened Steps
  import opened Lifecycle
  import opened TaskInvariant
  import opened Invariant
  import opened History
  import opened Order
  import opened Cancels
  import opened Causes
  import opened Outcomes
  import opened Measure
  import opened Liveness
  import opened AllRuns
  import opened RunGuarantees

  /** How often a request did each of the three things it can do. */
  datatype Effects = Effects(added: int, failures: int, cancels: int)

  function Effect(s: State, s': State): Effects {
    Effects(|s'.tasks| - |s.tasks|, |s'.reg.initErrors| - |s.reg.initErrors|, s'.reg.requests - s.reg.requests)
  }

  /**
   * However it is interleaved with the start of a run, adding a task does exactly one of three things: a good task is
   * added if the run was not seen, and then the run has not read its tasks yet; a bad one is recorded as an error if
   * the run did not begin; else the run is asked to end.
   */
  lemma AddDoesOneThing(s: State)
    requires Reachable(s) && s.reg.lock.Some? && s.reg.lock.value.request.AddTask?
    ensures var holder := s.reg.lock.value;
      Effect(s, Apply(s, Release)) ==
        if !holder.sawRunning && holder.request.add.GoodTask? then Effects(1, 0, 0)
        else if !holder.sawRunning && s.pc.Fresh? then Effects(0, 1, 0)
        else Effects(0, 0, 1)
    ensures Effect(s, Apply(s, Release)).added == 1 ==> s.pc.Fresh? || s.pc.Claimed?
  {
    assert LockOK(s) by {
      hide TasksOK, Reachable, CausesOK, Apply;
      ReachableCauses(s);
    }
  }

  /** The error of a request that is made before the run: what is wrong with the task, or the error itself. */
  function ErrorOf(request: Request): Option<Err> {
    match request
    case Shutdown => None
    case AddInitError(err) => Some(err)
    case AddTask(add) => Fault(add)
  }

  /** Nothing was done for the task yet, and it has the steps and options it was added with. */
  predicate Untouched(task: Task) {
    && task.has == task.spec.steps && task.ssm == task.spec.ssm && task.log == [] && task.data == None
    && task.got == [] && task.cell == [] && task.told == [] && forall step: Step :: PhaseOf(task, step) == Idle
  }

  /** The cancel was called by this request, with what it has to say. */
  predicate MadeBy(c: Cancel, request: Request) { c.origin == FromRequest(request) && Asks(request, c.cause) }

  predicate AddsTask(s: State, s': State, request: Request) {
    && request.AddTask? && request.add.GoodTask? && s.tasks < s'.tasks
    && s'.tasks[|s.tasks|].spec == request.add.spec && Untouched(s'.tasks[|s.tasks|])
  }

  predicate AddsError(s: State, s': State, request: Request) {
    && s.pc.Fresh? && ErrorOf(request).Some?
    && s'.reg.initErrors == s.reg.initErrors + [ErrorOf(request).value]
  }

  /** The cancel is called at once if the run has a context, else it is kept unless one is kept already. */
  predicate AddsCancel(s: State, s': State, request: Request) {
    if s.ctx.published then
      && s'.reg.pending == s.reg.pending && |s'.ctx.cancels| == |s.ctx.cancels| + 1 && s.ctx.cancels < s'.ctx.cancels
      && MadeBy(s'.ctx.cancels[|s.ctx.cancels|], request)
      && s'.ctx.startup.Some? && (s.ctx.startup.Some? ==> s'.ctx.startup == s.ctx.startup)
      && (s.ctx.startup == None ==> s'.ctx.startup.value == s'.ctx.cancels[|s.ctx.cancels|].cause)
    else
      && s'.ctx == s.ctx && s'.reg.pending.Some?
      && (s.reg.pending.Some? ==> s'.reg.pending == s.reg.pending)
      && (s.reg.pending == None ==> MadeBy(s'.reg.pending.value, request))
  }

  lemma ServeLeaves(s: State, holder: Holder)
    requires !holder.sawRunning ==> s.pc.Fresh? || s.pc.Claimed?
    requires holder.sawRunning ==> !s.pc.Fresh?
    ensures var s', request := Serve(s, holder), holder.request;
      || (Effect(s, s') == Effects(1, 0, 0) && AddsTask(s, s', request))
      || (Effect(s, s') == Effects(0, 1, 0) && AddsError(s, s', request))
      || (Effect(s, s') == Effects(0, 0, 1) && AddsCancel(s, s', request) && (request.AddInitError? ==> !s.pc.Fresh?))
  {
    var request := holder.request;
    match request
    case Shutdown => CancelLeaves(s, request, ErrExit);
    case AddInitError(err) => ErrorLeaves(s, request, err);
    case AddTask(add) =>
      if holder.sawRunning {
        CancelLeaves(s, request, Wrapped([ErrAlreadyRunning]));
      } else if Fault(add).Some? {
        ErrorLeaves(s, request, Fault(add).value);
      } else {
        NewTaskIdle(add.spec);
      }
  }

  lemma CancelLeaves(s: State, request: Request, cause: Err)
    requires Asks(request, cause)
    ensures var s' := RequestCancel(s, request, cause);
      Effect(s, s') == Effects(0, 0, 1) && AddsCancel(s, s', request)
  {
    hide Asks;
  }

  lemma ErrorLeaves(s: State, request: Request, err: Err)
    requires ErrorOf(request) == Some(err)
    ensures var s' := RecordInitError(s, request, err);
      if s.pc.Fresh? then Effect(s, s') == Effects(0, 1, 0) && AddsError(s, s', request)
      else Effect(s, s') == Effects(0, 0, 1) && AddsCancel(s, s', request)
  {
    hide RequestCancel, AddsCancel;
    if !s.pc.Fresh? { CancelLeaves(s, request, Wrapped([ErrAlreadyRunning, err])); }
  }

  /**
   * What a request leaves behind: a good task as it was given, at the end; its error, at the end; or its cancel. Only
   * a request made before the run is ever recorded as an error.
   */
  lemma RequestLeaves(s: State)
    requires Reachable(s) && s.reg.lock.Some?
    ensures var s', request := Apply(s, Release), s.reg.lock.value.request;
      || (Effect(s, s') == Effects(1, 0, 0) && AddsTask(s, s', request))
      || (Effect(s, s') == Effects(0, 1, 0) && AddsError(s, s', request))
      || (Effect(s, s') == Effects(0, 0, 1) && AddsCancel(s, s', request) && (request.AddInitError? ==> !s.pc.Fresh?))
  {
    assert LockOK(s) by {
      hide TasksOK, Reachable, CausesOK, Apply;
      ReachableCauses(s);
    }
    hide Reachable, Serve, Untouched, MadeBy;
    ServeLeaves(s.(reg := s.reg.(lock := None)), s.reg.lock.value);
  }

  /** The tasks and errors read by the run: from then on no request changes them, and no task changes its place. */
  predicate SameRegistry(s: State, s': State) {
    && |s'.tasks| == |s.tasks|
    && (forall t :: 0 <= t < |s.tasks| ==> s'.tasks[t].spec == s.tasks[t].spec)
    && s'.reg.initErrors == s.reg.initErrors
  }

  /** The run has read the registry. */
  predicate Read(pc: PC) { !pc.Fresh? && !pc.Claimed? }

  lemma ServeFrozen(s: State, holder: Holder)
    requires Read(s.pc) && holder.sawRunning
    ensures Serve(s, holder).tasks == s.tasks && Serve(s, holder).reg.initErrors == s.reg.initErrors
  {
  }

  lemma ManagerFrozen(s: State, a: Action)
    requires Inv(s) && ValidConfig(s.cfg) && Enabled(s, a) && IsManager(a)
    ensures Apply(s, a).reg == s.reg
  {
    hide Inv, SkipTask, BuildErrors, MayProceed, Flat, TimeoutError, ExitCause, HasStartTask, DoCheckNext;
    if a.CheckNext? { CheckShape(s); }
  }

  lemma MoveFrozen(s: State, a: Action)
    requires ValidConfig(s.cfg) && Enabled(s, a) && (IsGoroutine(a) || a.TaskReturn?)
    ensures Apply(s, a).reg == s.reg && |Apply(s, a).tasks| == |s.tasks|
  {
    hide PrepareTask, BeginTask, ReturnTask, SettleTask, WithPhase, PhaseOf, Plausible, Flat;
  }

  lemma LockSawRunning(s: State)
    requires Inv(s) && Read(s.pc) && s.reg.lock.Some?
    ensures s.reg.lock.value.sawRunning
  {
    hide TasksOK;
  }

  lemma StepFrozen(s: State, a: Action)
    requires Inv(s) && ValidConfig(s.cfg) && Enabled(s, a) && Read(s.pc)
    ensures |Apply(s, a).tasks| == |s.tasks| && Apply(s, a).reg.initErrors == s.reg.initErrors
  {
    hide Inv;
    if IsGoroutine(a) || a.TaskReturn? {
      hide Apply;
      MoveFrozen(s, a);
    } else if IsManager(a) {
      if 0 < |s.tasks| { ManagerKeepsSpec(s, a, 0); } else { NoTasks(s, a); }
      hide Apply;
      ManagerFrozen(s, a);
    } else {
      hide Serve, TickClock, EndShut, EndDown;
      if a.Release? {
        LockSawRunning(s);
        ServeFrozen(s.(reg := s.reg.(lock := None)), s.reg.lock.value);
      } else {
        if a.Tick? { TickShape(s); }
        if a.CancelBase? { EndShape(s.(ctx := s.ctx.(base := Some(a.cause))), a.cause); }
      }
    }
  }

  lemma NoTasks(s: State, a: Action)
    requires ValidConfig(s.cfg) && Enabled(s, a) && IsManager(a) && |s.tasks| == 0
    ensures |Apply(s, a).tasks| == 0
  {
    hide BuildErrors, MayProceed, Flat, TimeoutError, ExitCause, HasStartTask;
  }

  lemma {:induction false} RegistryFrozenFrom(s: State, acts: seq<Action>, s': State)
    requires RunOK(s) && Read(s.pc) && Path(s, acts, s')
    ensures SameRegistry(s, s')
    decreases |acts|
  {
    hide RunOK, Apply, Enabled;
    if acts != [] {
      var next := Apply(s, acts[0]);
      RunParts(s);
      hide Inv;
      StepRun(s, acts[0]);
      StepFrozen(s, acts[0]);
      NeverBack(s, acts[0]);
      forall t | 0 <= t < |s.tasks|
        ensures next.tasks[t].spec == s.tasks[t].spec
      {
        SpecKept(s, acts[0], t);
      }
      RegistryFrozenFrom(next, acts[1..], s');
    }
  }

  /** From the first locked read of the run, its tasks and its initialization errors are frozen. */
  lemma RegistryFrozen(s: State, acts: seq<Action>, s': State)
    requires Reachable(s) && Read(s.pc) && Path(s, acts, s')
    ensures SameRegistry(s, s')
  {
    hide Reachable, RunOK;
    ReachableRun(s);
    RegistryFrozenFrom(s, acts, s');
  }

  /**
   * No request to end the run is lost: it ends the startup context if there is one, and is kept for it otherwise. A
   * request pending when the contexts are made ends the startup context before the first stage.
   */
  lemma NoRequestLost(s: State)
    requires Reachable(s)
    ensures s.reg.requests > 0 && !s.ctx.published ==> s.reg.pending.Some?
    ensures s.reg.requests > 0 && s.ctx.published && !s.pc.Applying? ==> s.ctx.startup.Some?
    ensures s.reg.requests > 0 && s.pc.Selecting? ==> Enabled(s, Select(false))
    ensures s.pc.Applying? && s.reg.pending.Some? ==> DoApplyPending(s).ctx.startup.Some?
  {
    hide Reachable, Inv;
    ReachableCauses(s);
    SelectingPublished(s);
  }

  // ---------- the first request ----------

  /** The cancel that was kept is called when the first stage is entered. */
  predicate KeptIsCalled(s: State) { s.ran > 0 && s.reg.pending.Some? ==> s.reg.pending.value in s.ctx.cancels }

  lemma ServeKeepsPending(s: State, holder: Holder)
    requires s.ctx.published || s.reg.pending.Some?
    ensures Serve(s, holder).reg.pending == s.reg.pending
  {
  }

  lemma PendingStays(s: State, a: Action)
    requires Inv(s) && ValidConfig(s.cfg) && Enabled(s, a) && (s.ctx.published || s.reg.pending.Some?)
    ensures Apply(s, a).reg.pending == s.reg.pending
  {
    hide Inv;
    if IsGoroutine(a) || a.TaskReturn? { hide Apply, Enabled; MoveFrozen(s, a); }
    else if IsManager(a) { hide Apply, Enabled; ManagerFrozen(s, a); }
    else {
      hide Serve, TickClock, EndShut, EndDown;
      if a.Release? { ServeKeepsPending(s.(reg := s.reg.(lock := None)), s.reg.lock.value); }
      if a.Tick? { TickShape(s); }
      if a.CancelBase? { EndShape(s.(ctx := s.ctx.(base := Some(a.cause))), a.cause); }
    }
  }

  lemma AppliedPending(s: State)
    requires Enabled(s, ApplyPending) && ValidConfig(s.cfg)
    ensures KeptIsCalled(Apply(s, ApplyPending))
  {
  }

  lemma NotEntered(s: State, a: Action)
    requires Inv(s) && ValidConfig(s.cfg) && Enabled(s, a) && s.ran == 0 && !a.ApplyPending?
    ensures Apply(s, a).ran == 0
  {
    assert Before(s.pc) by { hide TasksOK; }
    hide Inv;
    if !IsManager(a) {
      hide Apply, Enabled;
      BystanderShape(s, a);
    } else {
      hide DoCheckNext, DoProceed, SkipTask, HasStartTask, BuildErrors;
    }
  }

  lemma StepKept(s: State, a: Action)
    requires Inv(s) && ValidConfig(s.cfg) && Enabled(s, a) && KeptIsCalled(s)
    ensures KeptIsCalled(Apply(s, a))
  {
    if s.ran > 0 {
      assert s.ctx.published by { hide TasksOK; }
      hide Inv, Apply, Enabled;
      PendingStays(s, a);
      StepCancels(s, a);
    } else {
      hide Inv, Apply, Enabled;
      if a.ApplyPending? { AppliedPending(s); } else { NotEntered(s, a); }
    }
  }

  lemma {:induction false} KeptFrom(s: State, acts: seq<Action>, s': State)
    requires RunOK(s) && KeptIsCalled(s) && Path(s, acts, s')
    ensures KeptIsCalled(s') && RunOK(s')
    ensures s.reg.pending.Some? ==> s'.reg.pending == s.reg.pending
    decreases |acts|
  {
    hide RunOK, KeptIsCalled, Apply, Enabled;
    if acts != [] {
      RunParts(s);
      StepRun(s, acts[0]);
      StepKept(s, acts[0]);
      if s.reg.pending.Some? { PendingStays(s, acts[0]); }
      KeptFrom(Apply(s, acts[0]), acts[1..], s');
    }
  }

  /**
   * The first request that is kept for the run stays the one that is kept, whatever is asked later, and it is called
   * before the first stage is entered.
   */
  lemma FirstRequestStays(s: State, acts: seq<Action>, s': State)
    requires Reachable(s) && s.reg.pending.Some? && Path(s, acts, s')
    ensures s'.reg.pending == s.reg.pending
    ensures s'.ran > 0 ==> s.reg.pending.value in s'.ctx.cancels
  {
    hide RunOK, Apply, Enabled;
    var before :| ValidConfig(s.cfg) && Path(Init(s.cfg), before, s);
    InitRun(s.cfg);
    KeptFrom(Init(s.cfg), before, s);
    KeptFrom(s, acts, s');
  }

  /**
   * What a run returns when a request was the first to end it. After `Shutdown` that is no error. After a task or an
   * error that came too late it is `ErrAlreadyRunning` together with what was wrong, unless that wraps `ErrExit`.
   */
  lemma RequestDecides(s: State)
    requires Reachable(s) && s.pc == Done(false) && s.failed == None && s.ctx.caller == None
    requires s.ctx.cancels != [] && s.ctx.cancels[0].origin.FromRequest?
    ensures s.out.Some?
    ensures var request, cause := s.ctx.cancels[0].origin.request, s.out.value.cause;
      && (request.Shutdown? ==> cause == None)
      && (!request.Shutdown? && cause.Some? ==> Is(cause.value, ErrAlreadyRunning))
      && (request.AddInitError? ==>
            && (cause == None <==> Is(request.err, ErrExit))
            && (cause.Some? ==> Is(cause.value, request.err)))
      && (request.AddTask? && cause == None ==> request.add.BadTask? && Is(request.add.err, ErrExit))
  {
    ExitCauseIsFirst(s);
    var c := s.ctx.cancels[0];
    assert CameFrom(s, c) by {
      hide Reachable, Inv, CausesOK, ReasonOK, CountOK, OrdinaryOK, OutOK, CameFrom;
      ReachableCauses(s);
    }
    hide Reachable;
    RequestErrors(c.origin.request, c.cause);
  }

  lemma RequestErrors(request: Request, cause: Err)
    requires Asks(request, cause)
    ensures request.Shutdown? ==> Is(cause, ErrExit)
    ensures !request.Shutdown? ==> Is(cause, ErrAlreadyRunning)
    ensures request.AddInitError? ==> (Is(cause, ErrExit) <==> Is(request.err, ErrExit)) && Is(cause, request.err)
    ensures request.AddTask? && Is(cause, ErrExit) ==> request.add.BadTask? && Is(request.add.err, ErrExit)
  {
    hide Is;
    SingleIs(ErrAlreadyRunning);
    SingleIs(ErrInvalidStage);
    if request.AddInitError? { PairIs(ErrAlreadyRunning, request.err); }
    if request.AddTask? && Fault(request.add).Some? { PairIs(ErrAlreadyRunning, Fault(request.add).value); }
    PlainIs();
  }

  lemma PlainIs()
    ensures Is(ErrExit, ErrExit) && Is(ErrAlreadyRunning, ErrAlreadyRunning)
    ensures !Is(ErrAlreadyRunning, ErrExit) && !Is(ErrInvalidStage, ErrExit) && !Is(ErrNilTask, ErrExit)
  {
  }

  lemma SelectingPublished(s: State)
    requires Inv(s)
    ensures s.pc.Selecting? ==> s.ctx.published
  {
    hide TasksOK;
  }
}
