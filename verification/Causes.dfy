/** Why a run ends: the first cancel wins, and nothing that was asked for is lost. */
module Causes {
  import opened Errors
  import opened Steps
  import opened Lifecycle
  import opened TaskInvariant
  import opened Totals
  import opened Invariant
  import opened History

  function First(cancels: seq<Cancel>): Option<Err> { if cancels == [] then None else Some(cancels[0].cause) }

  /** The cause of exit was read. */
  predicate Decided(pc: PC) { ShutOpen(pc) || pc == Done(false) }

  predicate StartupOK(s: State) {
    && (!s.ctx.published ==> s.ctx.startup == None && s.ctx.cancels == [])
    && (s.ctx.published && s.ctx.caller == None ==> s.ctx.startup == First(s.ctx.cancels))
    && (s.ctx.published && s.ctx.caller.Some? ==> s.ctx.startup.Some?)
    && (s.ctx.startup.Some? ==> s.ctx.startup == s.ctx.caller || s.ctx.startup == First(s.ctx.cancels))
    && (s.ctx.cancels != [] ==> s.ctx.startup.Some?)
    && (s.reg.pending.Some? && s.ctx.published && !s.pc.Applying? ==> s.ctx.startup.Some?)
    && (s.reg.requests > 0 ==> s.reg.pending.Some? || s.ctx.startup.Some?)
    && (s.setupErrs != [] ==> s.ctx.startup.Some?)
  }

  predicate CauseOK(s: State) {
    Decided(s.pc) ==>
      && s.cause.Some?
      && (s.failed.Some? ==> s.cause == s.failed)
      && (s.failed == None && s.ctx.caller == None ==> s.cause == s.ctx.startup)
      && (s.failed == None ==> s.cause == s.ctx.caller || s.cause == s.ctx.startup)
  }

  predicate ReportsOK(s: State) {
    forall t :: 0 <= t < |s.tasks| && StartReported(s.tasks[t]) ==> s.ctx.startup.Some?
  }

  predicate CausesOK(s: State) { StartupOK(s) && CauseOK(s) && ReportsOK(s) }

  // ---------- what an action leaves alone ----------

  /** The action does not touch the causes. */
  predicate SameCauses(s: State, s': State) {
    && s'.ctx.published == s.ctx.published && s'.ctx.startup == s.ctx.startup && s'.ctx.cancels == s.ctx.cancels
    && s'.ctx.caller == s.ctx.caller && s'.reg.pending == s.reg.pending && s'.reg.requests == s.reg.requests
    && (s'.setupErrs == s.setupErrs || s'.setupErrs == [])
    && (s'.pc.Applying? <==> s.pc.Applying?)
    && (Decided(s'.pc) ==> Decided(s.pc) && s'.cause == s.cause && s'.failed == s.failed)
  }

  lemma SameCausesKeep(s: State, s': State)
    requires CausesOK(s) && SameCauses(s, s')
    requires forall t :: 0 <= t < |s'.tasks| && StartReported(s'.tasks[t]) ==>
               t < |s.tasks| && StartReported(s.tasks[t])
    ensures CausesOK(s')
  {
  }

  lemma MoveCauses(s: State, a: Action)
    requires CausesOK(s) && ValidConfig(s.cfg) && Enabled(s, a)
    requires (IsGoroutine(a) || a.TaskReturn?) && !a.Report?
    ensures CausesOK(Apply(s, a))
  {
    hide Apply, Enabled, CausesOK;
    var s', t := Apply(s, a), a.task;
    MoveReports(s, a);
    forall u | 0 <= u < |s'.tasks| && StartReported(s'.tasks[u])
      ensures StartReported(s.tasks[u])
    {
      if u != t { assert s'.tasks[u] == s.tasks[u]; }
    }
    SameCausesKeep(s, s');
  }

  lemma ReportCtx(s: State, t: nat, step: Step)
    requires t < |s.tasks| && PhaseOf(s.tasks[t], step).Settled?
    ensures var s' := DoReport(s, t, step);
      && (s'.ctx == s.ctx || exists e :: s'.ctx == CancelStartup(s.ctx, e))
      && (s'.setupErrs != s.setupErrs || step == Start ==> s'.ctx != s.ctx)
  {
    var err := PhaseOf(s.tasks[t], step).err;
    var s' := DoReport(s, t, step);
    if step == Setup && err.Some? {
      assert s'.ctx == CancelStartup(s.ctx, Cancel(FromTask(t, Setup), InitializationError(err.value)));
    } else if step == Start {
      assert s'.ctx == CancelStartup(s.ctx, Cancel(FromTask(t, Start), ErrorOrExit(err)));
    }
  }

  lemma CancelKeeps(s: State, s': State, e: Cancel)
    requires CausesOK(s) && s.ctx.published && s'.ctx == CancelStartup(s.ctx, e)
    requires s'.reg.pending == s.reg.pending
    requires s'.cause == s.cause && s'.failed == s.failed && s'.pc == s.pc
    ensures CausesOK(s')
  {
  }

  /** A step that was launched runs after the contexts were made. */
  lemma LiveMeansPublished(s: State, t: nat, step: Step)
    requires Inv(s) && t < |s.tasks| && Live(PhaseOf(s.tasks[t], step))
    ensures s.ctx.published
  {
    hide TaskOK, LockOK, FailuresOK;
    TaskHolds(s, t);
    LiveView(s.tasks[t], step, ViewOf(s, t), Escaped(s), s.cfg.errorHandler);
  }

  lemma LiveView(task: Task, step: Step, v: View, esc: bool, eh: ErrorHandler)
    requires TaskOK(task, v, esc, eh) && Live(PhaseOf(task, step))
    ensures Progress(v, step) >= 1
  {
  }

  lemma ReportCauses(s: State, t: nat, step: Step)
    requires Inv(s) && CausesOK(s) && t < |s.tasks| && PhaseOf(s.tasks[t], step).Settled?
    ensures CausesOK(DoReport(s, t, step))
  {
    hide Inv, CausesOK, DoReport, WithPhase, CancelStartup;
    var s' := DoReport(s, t, step);
    LiveMeansPublished(s, t, step);
    ReportShape(s, t, step);
    ReportCtx(s, t, step);
    if s'.ctx == s.ctx {
      PhasePhases(s.tasks[t], step, Reported(PhaseOf(s.tasks[t], step).err));
      assert PhaseOf(s'.tasks[t], Start) == s'.tasks[t].start;
      forall u | 0 <= u < |s'.tasks| && StartReported(s'.tasks[u])
        ensures StartReported(s.tasks[u])
      {
        if u != t { assert s'.tasks[u] == s.tasks[u]; }
      }
      SameCausesKeep(s, s');
    } else {
      var e :| s'.ctx == CancelStartup(s.ctx, e);
      CancelKeeps(s, s', e);
    }
  }

  lemma QuietManager(s: State, a: Action)
    requires CausesOK(s) && ValidConfig(s.cfg) && Enabled(s, a)
    requires a.ReadRegistry? || a.RunHooks? || a.EndScan? || a.Proceed? || a.Drained?
    ensures CausesOK(Apply(s, a))
  {
    hide CausesOK, BuildErrors, MayProceed, HasStartTask, AllStartsOver;
    SameCausesKeep(s, Apply(s, a));
  }

  lemma EndingCauses(s: State, a: Action)
    requires CausesOK(s) && PcOK(s) && ValidConfig(s.cfg) && Enabled(s, a) && (a.Turn? || a.Close? || a.Build?)
    ensures CausesOK(Apply(s, a))
  {
    hide CausesOK, Flat, BuildErrors, TimeoutError, ExitCause;
    SameCausesKeep(s, Apply(s, a));
  }

  lemma PublishCauses(s: State)
    requires CausesOK(s) && s.pc.Publishing? && !s.ctx.published
    ensures CausesOK(DoPublish(s))
  {
  }

  lemma ApplyPendingCauses(s: State)
    requires CausesOK(s) && s.pc.Applying? && s.ctx.published
    ensures CausesOK(DoApplyPending(s))
  {
  }

  lemma CheckCauses(s: State)
    requires Inv(s) && CausesOK(s) && s.pc.Scan? && s.pc.next < |s.tasks|
    ensures CausesOK(DoCheckNext(s))
  {
    hide Inv, CausesOK, DoCheckNext, CheckTask;
    var t := s.pc.next;
    CheckShape(s);
    CheckStart(s.tasks[t], s.pc.step);
    SameCausesKeep(s, DoCheckNext(s));
  }

  lemma CheckStart(task: Task, step: Step)
    ensures StartReported(CheckTask(task, step)) ==> StartReported(task)
  {
  }

  lemma NotifyCauses(s: State)
    requires CausesOK(s) && s.pc.Skipping?
    ensures CausesOK(DoNotify(s))
  {
    hide CausesOK, SkipTask;
    if s.pc.next < |s.tasks| {
      SkipPhases(s.tasks[s.pc.next], SkipCause(s, s.pc.early));
      assert PhaseOf(SkipTask(s.tasks[s.pc.next], SkipCause(s, s.pc.early)), Start) == s.tasks[s.pc.next].start;
    }
    SameCausesKeep(s, DoNotify(s));
  }

  lemma SelectCauses(s: State, caller: bool)
    requires Inv(s) && CausesOK(s) && Enabled(s, Select(caller))
    ensures CausesOK(DoSelect(s, caller))
  {
    hide TaskOK, TasksOK;
  }

  lemma CancelCallerCauses(s: State, cause: Err)
    requires CausesOK(s)
    ensures CausesOK(DoCancelCaller(s, cause))
  {
  }

  lemma RequestCauses(s: State, request: Request, cause: Err)
    requires CausesOK(s) && !s.pc.Applying?
    ensures CausesOK(RequestCancel(s, request, cause))
  {
  }

  lemma RequestWhileApplying(s: State, request: Request, cause: Err)
    requires CausesOK(s) && s.ctx.published
    ensures CausesOK(RequestCancel(s, request, cause))
  {
  }

  lemma AddedCauses(s: State, spec: Spec)
    requires CausesOK(s)
    ensures CausesOK(s.(tasks := s.tasks + [NewTask(spec)]))
  {
    hide CausesOK;
    SameCausesKeep(s, s.(tasks := s.tasks + [NewTask(spec)]));
  }

  lemma InitErrorCauses(s: State, request: Request, err: Err)
    requires CausesOK(s) && (s.pc.Applying? ==> s.ctx.published)
    ensures CausesOK(RecordInitError(s, request, err))
  {
    if IsRunning(s) {
      hide RequestCancel, CausesOK;
      AnyRequestCauses(s, request, Wrapped([ErrAlreadyRunning, err]));
    }
  }

  lemma AnyRequestCauses(s: State, request: Request, cause: Err)
    requires CausesOK(s) && (s.pc.Applying? ==> s.ctx.published)
    ensures CausesOK(RequestCancel(s, request, cause))
  {
    if s.pc.Applying? { RequestWhileApplying(s, request, cause); } else { RequestCauses(s, request, cause); }
  }

  lemma ServeCauses(s: State, holder: Holder)
    requires CausesOK(s) && (s.pc.Applying? ==> s.ctx.published)
    ensures CausesOK(Serve(s, holder))
  {
    hide RequestCancel, CausesOK, NewTask, RecordInitError;
    var request := holder.request;
    match request
    case Shutdown => AnyRequestCauses(s, request, ErrExit);
    case AddInitError(err) => InitErrorCauses(s, request, err);
    case AddTask(add) =>
      if holder.sawRunning {
        AnyRequestCauses(s, request, Wrapped([ErrAlreadyRunning]));
      } else {
        match add
        case NilTask => InitErrorCauses(s, request, ErrNilTask);
        case BadTask(err) => InitErrorCauses(s, request, err);
        case BadStage => InitErrorCauses(s, request, Wrapped([ErrInvalidStage]));
        case GoodTask(spec) => AddedCauses(s, spec);
      }
  }

  lemma EnvironmentCauses(s: State, a: Action)
    requires Inv(s) && CausesOK(s) && Enabled(s, a)
    requires a.CallRun? || a.CancelCaller? || a.CancelBase? || a.Tick? || a.Enter? || a.Release?
    ensures CausesOK(Apply(s, a))
  {
    hide TaskOK, TasksOK, FailuresOK, CausesOK, TickClock, EndShut, EndDown, Serve, DoCancelCaller;
    if a.CancelCaller? {
      CancelCallerCauses(s, a.cause);
    } else if a.Release? {
      var freed := s.(reg := s.reg.(lock := None));
      SameCausesKeep(s, freed);
      PublishedOf(s);
      ServeCauses(freed, s.reg.lock.value);
    } else {
      if a.CancelBase? { EndShape(s.(ctx := s.ctx.(base := Some(a.cause))), a.cause); }
      if a.Tick? { TickShape(s); }
      SameCausesKeep(s, Apply(s, a));
    }
  }

  lemma StartupCauses(s: State, a: Action)
    requires PcOK(s) && ValidConfig(s.cfg) && CausesOK(s) && Enabled(s, a) && (a.Publish? || a.ApplyPending?)
    ensures CausesOK(Apply(s, a))
  {
    hide CausesOK, PcOK, DoPublish, DoApplyPending;
    PublishedOf(s);
    if a.Publish? { PublishCauses(s); } else { ApplyPendingCauses(s); }
  }

  lemma StepCauses(s: State, a: Action)
    requires Inv(s) && ValidConfig(s.cfg) && CausesOK(s) && Enabled(s, a)
    ensures CausesOK(Apply(s, a))
  {
    assert PcOK(s) by { hide TasksOK; }
    hide Inv, CausesOK, PcOK;
    if (IsGoroutine(a) && !a.Report?) || a.TaskReturn? { hide Apply, Enabled; MoveCauses(s, a); }
    else if a.Publish? || a.ApplyPending? { hide Apply, Enabled; StartupCauses(s, a); }
    else if a.Report? { ReportCauses(s, a.task, a.step); }
    else if a.CheckNext? { CheckCauses(s); }
    else if a.Notify? { NotifyCauses(s); }
    else if a.Select? { SelectCauses(s, a.caller); }
    else if a.Turn? || a.Close? || a.Build? { hide Apply, Enabled; EndingCauses(s, a); }
    else if IsManager(a) { hide Apply, Enabled; QuietManager(s, a); }
    else { hide Apply, Enabled; EnvironmentCauses(s, a); }
  }

  lemma PublishedOf(s: State)
    requires PcOK(s)
    ensures s.pc.Publishing? ==> !s.ctx.published
    ensures s.pc.Applying? ==> s.ctx.published
  {
  }
}
