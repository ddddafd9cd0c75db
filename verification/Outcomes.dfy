/** What a run returns: no error of a run carries the internal fatal mark, so the cause is passed on as it is. */
module Outcomes {
  import opened Errors
  import opened Steps
  import opened Lifecycle
  import opened TaskInvariant
  import opened Invariant
  import opened History
  import opened Causes

  function ErrOf(p: Phase): Option<Err> { if Over(p) then p.err else None }

  predicate TaskOrdinary(task: Task) {
    forall step: Step :: OrdinaryOpt(ErrOf(PhaseOf(task, step)))
  }

  predicate OrdinaryOK(s: State) {
    && OrdinaryOpt(s.ctx.caller) && OrdinaryOpt(s.ctx.startup) && OrdinaryOpt(s.ctx.base)
    && OrdinaryOpt(s.ctx.shut) && OrdinaryOpt(s.ctx.down)
    && (s.reg.pending.Some? ==> Ordinary(s.reg.pending.value.cause)) && AllOrdinary(s.reg.initErrors)
    && OrdinaryOpt(s.failed) && OrdinaryOpt(s.cause)
    && AllOrdinary(s.setupErrs) && AllOrdinary(s.errs)
    && forall t :: 0 <= t < |s.tasks| ==> TaskOrdinary(s.tasks[t])
  }

  /** A finished run returns its cause, where `ErrExit` means none. */
  predicate OutOK(s: State) {
    && (s.pc == Done(false) ==>
          && s.out.Some? && s.cause.Some?
          && s.out.value.cause == if Is(s.cause.value, ErrExit) then None else s.cause)
    && (s.pc == Done(true) ==> s.out.Some? && s.out == Some(Result(s.cause, None)) && s.cause.Some?)
  }

  lemma OrdinaryBuilt(es: seq<Err>)
    requires AllOrdinary(es)
    ensures OrdinaryOpt(BuildErrors(es))
  {
  }

  lemma OrdinaryFlat(e: Option<Err>)
    requires OrdinaryOpt(e)
    ensures AllOrdinary(Flat(e))
  {
  }

  lemma OrdinaryWrapped(e: Err)
    requires Ordinary(e)
    ensures Ordinary(Wrapped([ErrInitialization, e])) && Ordinary(Wrapped([ErrAlreadyRunning, e]))
    ensures Ordinary(Wrapped([ErrAlreadyRunning])) && Ordinary(Wrapped([ErrInvalidStage]))
  {
  }

  predicate SameErrs(s: State, s': State) {
    && s'.ctx == s.ctx && s'.reg.pending == s.reg.pending && s'.reg.initErrors == s.reg.initErrors
    && s'.failed == s.failed && s'.cause == s.cause
    && (s'.setupErrs == s.setupErrs || s'.setupErrs == []) && s'.errs == s.errs
  }

  lemma OneTaskOrdinary(s: State, s': State, t: nat)
    requires OrdinaryOK(s) && SameErrs(s, s') && t < |s.tasks| == |s'.tasks|
    requires s'.tasks == s.tasks[t := s'.tasks[t]] && TaskOrdinary(s'.tasks[t])
    ensures OrdinaryOK(s')
  {
    hide TaskOrdinary, AllOrdinary, OrdinaryOpt;
    forall u | 0 <= u < |s'.tasks|
      ensures TaskOrdinary(s'.tasks[u])
    {
      if u != t { assert s'.tasks[u] == s.tasks[u]; }
    }
    assert AllOrdinary([]) by { EmptyOrdinary(); }
  }

  lemma EmptyOrdinary()
    ensures AllOrdinary([])
  {
  }

  lemma TaskOrdinaryMove(task: Task, task': Task, step: Step, p: Phase)
    requires TaskOrdinary(task) && OrdinaryOpt(ErrOf(p))
    requires forall u :: PhaseOf(task', u) == if u == step then p else PhaseOf(task, u)
    ensures TaskOrdinary(task')
  {
  }

  lemma MoveOrdinary(s: State, a: Action)
    requires OrdinaryOK(s) && ValidConfig(s.cfg) && Enabled(s, a)
    requires (IsGoroutine(a) || a.TaskReturn?) && !a.Report?
    ensures OrdinaryOK(Apply(s, a))
  {
    var s', t, step := Apply(s, a), a.task, a.step;
    assert a.TaskReturn? ==> OrdinaryOpt(a.out.err);
    hide Apply, Enabled, PhaseOf, AllOrdinary;
    MoveShape(s, a);
    assert TaskOrdinary(s.tasks[t]);
    assert OrdinaryOpt(ErrOf(PhaseOf(s.tasks[t], step)));
    TaskOrdinaryMove(s.tasks[t], s'.tasks[t], step, NextPhase(s.tasks[t], a));
    OneTaskOrdinary(s, s', t);
  }

  lemma OnErrorOrdinary(s: State, t: nat, step: Step, err: Option<Err>)
    requires OrdinaryOK(s) && OrdinaryOpt(err)
    ensures OrdinaryOK(OnError(s, t, step, err))
  {
    hide TaskOrdinary;
    if step == Setup && err.Some? { OrdinaryWrapped(err.value); }
    OrdinaryFlat(err);
    assert Ordinary(ErrExit);
  }

  lemma ReportOrdinary(s: State, t: nat, step: Step)
    requires OrdinaryOK(s) && t < |s.tasks| && PhaseOf(s.tasks[t], step).Settled?
    ensures OrdinaryOK(DoReport(s, t, step))
  {
    hide WithPhase, OnError, AllOrdinary;
    var err := PhaseOf(s.tasks[t], step).err;
    var moved := SetTask(s, t, WithPhase(s.tasks[t], step, Reported(err)));
    assert TaskOrdinary(s.tasks[t]);
    assert OrdinaryOpt(ErrOf(PhaseOf(s.tasks[t], step)));
    PhasePhases(s.tasks[t], step, Reported(err));
    TaskOrdinaryMove(s.tasks[t], moved.tasks[t], step, Reported(err));
    OneTaskOrdinary(s, moved, t);
    OnErrorOrdinary(moved, t, step, err);
  }

  lemma CheckOrdinary(s: State)
    requires Inv(s) && OrdinaryOK(s) && s.pc.Scan? && s.pc.next < |s.tasks|
    ensures OrdinaryOK(DoCheckNext(s))
  {
    hide Inv, DoCheckNext, CheckTask, AllOrdinary, OrdinaryOpt;
    var s', t := DoCheckNext(s), s.pc.next;
    CheckShape(s);
    assert TaskOrdinary(s.tasks[t]);
    CheckTaskOrdinary(s.tasks[t], s.pc.step);
    if InStage(s, s.pc.stage, t) {
      OneTaskOrdinary(s, s', t);
    }
  }

  lemma CheckTaskOrdinary(task: Task, step: Step)
    requires TaskOrdinary(task)
    ensures TaskOrdinary(CheckTask(task, step))
  {
    if CheckTask(task, step) != task.(log := CheckTask(task, step).log) {
      TaskOrdinaryMove(task, CheckTask(task, step), step, Launched);
    } else {
      forall u
        ensures PhaseOf(CheckTask(task, step), u) == PhaseOf(task, u)
      {
      }
      assert TaskOrdinary(CheckTask(task, step)) by {
        forall u ensures OrdinaryOpt(ErrOf(PhaseOf(CheckTask(task, step), u)))
        {
          assert OrdinaryOpt(ErrOf(PhaseOf(task, u)));
        }
      }
    }
  }

  lemma NotifyOrdinary(s: State)
    requires OrdinaryOK(s) && s.pc.Skipping?
    ensures OrdinaryOK(DoNotify(s))
  {
    hide SkipTask, AllOrdinary, OrdinaryOpt;
    var s', t := DoNotify(s), s.pc.next;
    if s'.tasks != s.tasks {
      var cause := SkipCause(s, s.pc.early);
      assert TaskOrdinary(s.tasks[t]);
      SkipPhases(s.tasks[t], cause);
      assert forall u: Step :: OrdinaryOpt(ErrOf(PhaseOf(s.tasks[t], u)));
      OneTaskOrdinary(s, s', t);
    }
  }

  lemma FailedOrdinary(s: State)
    requires OrdinaryOK(s) && s.pc.Await?
    ensures OrdinaryOK(DoProceed(s))
  {
    hide TaskOrdinary, BuildErrors;
    OrdinaryBuilt(s.setupErrs);
  }

  lemma OwnOrdinary(s: State, err: Err)
    requires OrdinaryOK(s) && Ordinary(err)
    ensures OrdinaryOK(AddOwnErr(s, err)) && Ordinary(TimeoutError(err))
  {
    hide TaskOrdinary;
    OrdinaryFlat(Some(err));
  }

  lemma TurnOrdinary(s: State)
    requires OrdinaryOK(s) && s.pc.Turning? && ValidConfig(s.cfg)
    ensures OrdinaryOK(DoTurn(s))
  {
    hide TaskOrdinary, AllOrdinary, TimeoutError, Flat;
    if s.ctx.shut.Some? {
      OwnOrdinary(s, s.ctx.shut.value);
      OwnOrdinary(s, TimeoutError(s.ctx.shut.value));
    }
  }

  lemma CloseOrdinary(s: State)
    requires OrdinaryOK(s) && s.pc.Closing?
    ensures OrdinaryOK(DoClose(s))
  {
    hide TaskOrdinary, AllOrdinary, TimeoutError, Flat;
    if TeardownEnd(s).Some? {
      OwnOrdinary(s, TeardownEnd(s).value);
      OwnOrdinary(s, TimeoutError(TeardownEnd(s).value));
    }
  }

  lemma ReadRegistryOrdinary(s: State)
    requires OrdinaryOK(s) && s.pc.Claimed?
    ensures OrdinaryOK(DoReadRegistry(s))
  {
    hide TaskOrdinary, BuildErrors, HasStartTask;
    OrdinaryBuilt(s.reg.initErrors);
    assert Ordinary(ErrNoStartTask);
    if s.reg.initErrors != [] { assert BuildErrors(s.reg.initErrors).Some? by { SomeBuilt(s.reg.initErrors); } }
  }

  lemma SomeBuilt(es: seq<Err>)
    ensures BuildErrors(es).Some? <==> es != []
  {
  }

  lemma PlainManagerOrdinary(s: State, a: Action)
    requires OrdinaryOK(s) && ValidConfig(s.cfg) && Enabled(s, a)
    requires a.RunHooks? || a.Publish? || a.ApplyPending? || a.EndScan? || a.Select? || a.Drained? || a.Build?
    ensures OrdinaryOK(Apply(s, a))
  {
    hide TaskOrdinary, ExitCause, BuildErrors;
  }

  lemma RequestOrdinary(s: State, request: Request, cause: Err)
    requires OrdinaryOK(s) && Ordinary(cause)
    ensures OrdinaryOK(RequestCancel(s, request, cause))
  {
    hide TaskOrdinary, AllOrdinary;
  }

  lemma RecordOrdinary(s: State, request: Request, err: Err)
    requires OrdinaryOK(s) && Ordinary(err)
    ensures OrdinaryOK(RecordInitError(s, request, err))
  {
    hide TaskOrdinary, RequestCancel;
    OrdinaryWrapped(err);
    if IsRunning(s) { RequestOrdinary(s, request, Wrapped([ErrAlreadyRunning, err])); }
  }

  lemma NewTaskOrdinary(spec: Spec)
    ensures TaskOrdinary(NewTask(spec))
  {
  }

  lemma AddOrdinary(s: State, add: AddRequest, saw: bool)
    requires OrdinaryOK(s) && ValidRequest(s.cfg, AddTask(add))
    ensures OrdinaryOK(Serve(s, Holder(AddTask(add), saw)))
  {
    hide OrdinaryOpt, AllOrdinary, TaskOrdinary, RequestCancel, RecordInitError, NewTask;
    OrdinaryWrapped(ErrNilTask);
    var request := AddTask(add);
    if saw {
      RequestOrdinary(s, request, Wrapped([ErrAlreadyRunning]));
    } else {
      match add
      case NilTask => RecordOrdinary(s, request, ErrNilTask);
      case BadTask(err) => RecordOrdinary(s, request, err);
      case BadStage => RecordOrdinary(s, request, Wrapped([ErrInvalidStage]));
      case GoodTask(spec) => NewTaskOrdinary(spec);
    }
  }

  lemma ServeOrdinary(s: State, holder: Holder)
    requires OrdinaryOK(s) && ValidRequest(s.cfg, holder.request)
    ensures OrdinaryOK(Serve(s, holder))
  {
    hide OrdinaryOK, RequestCancel, RecordInitError;
    assert Ordinary(ErrExit);
    var request := holder.request;
    match request
    case Shutdown => RequestOrdinary(s, request, ErrExit);
    case AddInitError(err) => RecordOrdinary(s, request, err);
    case AddTask(add) => AddOrdinary(s, add, holder.sawRunning);
  }

  lemma EndOrdinary(s: State, cause: Err)
    requires OrdinaryOK(s) && Ordinary(cause)
    ensures OrdinaryOK(EndShut(s, cause)) && OrdinaryOK(EndDown(s, cause))
  {
    hide TaskOrdinary, AllOrdinary;
  }

  lemma TickOrdinary(s: State)
    requires OrdinaryOK(s)
    ensures OrdinaryOK(TickClock(s))
  {
    hide OrdinaryOK, EndShut, EndDown;
    assert Ordinary(DeadlineExceeded);
    var later := s.(clock := s.clock.(now := s.clock.now + 1));
    assert OrdinaryOK(later) by { LaterOrdinary(s, later); }
    EndOrdinary(later, DeadlineExceeded);
    EndOrdinary(EndShut(later, DeadlineExceeded), DeadlineExceeded);
  }

  lemma LaterOrdinary(s: State, s': State)
    requires OrdinaryOK(s) && SameErrs(s, s') && s'.tasks == s.tasks && s'.setupErrs == s.setupErrs
    ensures OrdinaryOK(s')
  {
    hide TaskOrdinary, AllOrdinary, OrdinaryOpt;
  }

  lemma CancelBaseOrdinary(s: State, cause: Err)
    requires OrdinaryOK(s) && Ordinary(cause)
    ensures OrdinaryOK(DoCancelBase(s, cause))
  {
    hide TaskOrdinary, AllOrdinary, EndShut, EndDown;
    var based := s.(ctx := s.ctx.(base := Some(cause)));
    EndOrdinary(based, cause);
    EndOrdinary(EndShut(based, cause), cause);
  }

  lemma CancelCallerOrdinary(s: State, cause: Err)
    requires OrdinaryOK(s) && Ordinary(cause)
    ensures OrdinaryOK(DoCancelCaller(s, cause))
  {
    hide TaskOrdinary, AllOrdinary;
  }

  lemma CallerOrdinary(s: State, a: Action)
    requires OrdinaryOK(s) && ValidConfig(s.cfg) && Enabled(s, a)
    requires a.CallRun? || a.CancelCaller? || a.CancelBase? || a.Tick? || a.Enter?
    ensures OrdinaryOK(Apply(s, a))
  {
    hide OrdinaryOK, TickClock, DoCancelBase, DoCancelCaller, OrdinaryOpt, Ordinary;
    if a.Tick? { TickOrdinary(s); }
    else if a.CancelBase? { CancelBaseOrdinary(s, a.cause); }
    else if a.CancelCaller? { CancelCallerOrdinary(s, a.cause); }
    else { LaterOrdinary(s, Apply(s, a)); }
  }

  lemma ReleaseOrdinary(s: State)
    requires OrdinaryOK(s) && ValidConfig(s.cfg) && LockOK(s) && s.reg.lock.Some?
    ensures OrdinaryOK(Apply(s, Release))
  {
    hide TaskOrdinary, AllOrdinary, Serve, OrdinaryOpt;
    ServeOrdinary(s.(reg := s.reg.(lock := None)), s.reg.lock.value);
  }

  lemma StepOrdinary(s: State, a: Action)
    requires Inv(s) && OrdinaryOK(s) && ValidConfig(s.cfg) && Enabled(s, a)
    ensures OrdinaryOK(Apply(s, a))
  {
    assert LockOK(s) by { hide TasksOK; }
    hide Inv, OrdinaryOK, LockOK;
    if a.Report? { ReportOrdinary(s, a.task, a.step); }
    else if IsGoroutine(a) || a.TaskReturn? { MoveOrdinary(s, a); }
    else if a.CheckNext? { CheckOrdinary(s); }
    else if a.Notify? { NotifyOrdinary(s); }
    else if a.Proceed? { FailedOrdinary(s); }
    else if a.Turn? { TurnOrdinary(s); }
    else if a.Close? { CloseOrdinary(s); }
    else if a.ReadRegistry? { ReadRegistryOrdinary(s); }
    else if IsManager(a) { PlainManagerOrdinary(s, a); }
    else if a.Release? { ReleaseOrdinary(s); }
    else { CallerOrdinary(s, a); }
  }

  // ---------- the result ----------

  /** The result is made by the last move of the manager, and is not changed by anything after it. */
  lemma ResultKept(s: State, a: Action)
    requires Inv(s) && ValidConfig(s.cfg) && Enabled(s, a) && s.pc.Done?
    ensures var s' := Apply(s, a);
      s'.pc == s.pc && s'.out == s.out && s'.cause == s.cause && s'.built == s.built && s'.failed == s.failed
  {
    assert !IsManager(a);
    hide Inv, Apply, Enabled;
    BystanderShape(s, a);
  }

  lemma StepOut(s: State, a: Action)
    requires Inv(s) && OrdinaryOK(s) && OutOK(s) && ValidConfig(s.cfg) && Enabled(s, a)
    ensures OutOK(Apply(s, a))
  {
    assert PcOK(s) by { hide TasksOK; }
    hide Inv, OrdinaryOK, Apply;
    var s' := Apply(s, a);
    if s.pc.Done? {
      ResultKept(s, a);
    } else if a.Build? {
      BuildOut(s);
    } else if a.Notify? {
      NotifyOut(s);
    } else {
      NotDone(s, a);
    }
  }

  lemma BuildOut(s: State)
    requires OrdinaryOK(s) && Enabled(s, Build) && ValidConfig(s.cfg)
    ensures OutOK(Apply(s, Build))
  {
    hide TaskOrdinary, ExitCause, BuildErrors, Is;
    OrdinaryExit(s.cause.value, s.errs);
  }

  lemma NotifyOut(s: State)
    requires PcOK(s) && Enabled(s, Notify) && ValidConfig(s.cfg)
    ensures OutOK(Apply(s, Notify))
  {
    hide SkipTask;
  }

  lemma NotDone(s: State, a: Action)
    requires Inv(s) && ValidConfig(s.cfg) && Enabled(s, a) && !s.pc.Done? && !a.Build? && !a.Notify?
    ensures !Apply(s, a).pc.Done?
  {
    hide Inv;
    if IsManager(a) {
      hide DoCheckNext, MayProceed, Flat, SkipTask, BuildErrors, ExitCause;
      if a.CheckNext? { CheckShape(s); }
    } else {
      hide Apply, Enabled;
      BystanderShape(s, a);
    }
  }
}
