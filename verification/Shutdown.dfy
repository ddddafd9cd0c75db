/** The errors of a shutdown and its clock. */
module Shutdown {
  import opened Errors
  import opened Steps
  import opened Lifecycle
  import opened TaskInvariant
  import opened Totals
  import opened Invariant
  import opened History
  import opened Order

  // ---------- errors ----------

  /** The collected errors are those reported by stop and teardown steps, and those of the manager. */
  predicate ErrorsOK(s: State) {
    && multiset(s.errs) == Total(s.tasks, ShutdownFailure()) + multiset(s.ownErrs)
    && s.built <= |s.errs|
    && (s.pc == Done(false) ==> s.out.Some? && s.out.value.stopErr == BuildErrors(s.errs[..s.built]))
    && (s.pc == Done(false) && s.built < |s.errs| ==> s.cfg.enforce)
  }

  predicate SameErrors(s: State, s': State) {
    && s'.errs == s.errs && s'.ownErrs == s.ownErrs && s'.built == s.built && s'.cfg == s.cfg
    && (s'.pc == Done(false) ==> s.pc == Done(false) && s'.out == s.out)
  }

  /** A task whose stop and teardown steps report the same counts the same. */
  lemma SameTotal(tasks: seq<Task>, t: nat, task': Task)
    requires t < |tasks| && ReportOf(task'.stop) == ReportOf(tasks[t].stop)
    requires ReportOf(task'.teardown) == ReportOf(tasks[t].teardown)
    ensures Total(tasks[t := task'], ShutdownFailure()) == Total(tasks, ShutdownFailure())
  {
    assert ShutdownFailure()(task') == ShutdownFailure()(tasks[t]);
    hide ShutdownFailure;
    TotalUnchanged(tasks, t, task', ShutdownFailure());
  }

  lemma ErrorsKept(s: State, s': State, t: nat)
    requires ErrorsOK(s) && SameErrors(s, s') && t < |s.tasks| == |s'.tasks|
    requires s'.tasks == s.tasks[t := s'.tasks[t]]
    requires ReportOf(s'.tasks[t].stop) == ReportOf(s.tasks[t].stop)
    requires ReportOf(s'.tasks[t].teardown) == ReportOf(s.tasks[t].teardown)
    ensures ErrorsOK(s')
  {
    hide Total, ShutdownFailure;
    SameTotal(s.tasks, t, s'.tasks[t]);
  }

  lemma MoveErrors(s: State, a: Action)
    requires ErrorsOK(s) && ValidConfig(s.cfg) && Enabled(s, a)
    requires (IsGoroutine(a) || a.TaskReturn?) && !a.Report?
    ensures ErrorsOK(Apply(s, a))
  {
    hide Apply, Enabled, ErrorsOK;
    var s', t := Apply(s, a), a.task;
    MoveReports(s, a);
    ErrorsKept(s, s', t);
  }

  /** Reporting a stop or teardown step adds its error, flattened, to both sides. */
  lemma ReportAdds(tasks: seq<Task>, t: nat, step: Step)
    requires t < |tasks| && (step == Stop || step == Teardown) && PhaseOf(tasks[t], step).Settled?
    ensures var err := PhaseOf(tasks[t], step).err;
      Total(tasks[t := WithPhase(tasks[t], step, Reported(err))], ShutdownFailure())
      == Total(tasks, ShutdownFailure()) + multiset(Flat(err))
  {
    var err, f := PhaseOf(tasks[t], step).err, ShutdownFailure();
    var task, task' := tasks[t], WithPhase(tasks[t], step, Reported(err));
    assert Flat(None) == [];
    assert f(task') == f(task) + multiset(Flat(err));
    hide ShutdownFailure, WithPhase, Flat, Total;
    TotalUpdate(tasks, t, task', f);
    CancelTerm(Total(tasks[t := task'], f), Total(tasks, f) + multiset(Flat(err)), f(task));
  }

  lemma ReportErrs(s: State, t: nat, step: Step)
    requires t < |s.tasks| && PhaseOf(s.tasks[t], step).Settled?
    ensures var s', err := DoReport(s, t, step), PhaseOf(s.tasks[t], step).err;
      && s'.errs == (if step == Stop || step == Teardown then s.errs + Flat(err) else s.errs)
      && s'.ownErrs == s.ownErrs && s'.built == s.built && s'.out == s.out
  {
    hide Flat;
  }

  /** Once the run returned, a report comes from a goroutine that was given up. */
  lemma LateReport(s: State, t: nat, step: Step)
    requires Inv(s) && t < |s.tasks| && PhaseOf(s.tasks[t], step).Settled? && s.pc == Done(false)
    ensures (step == Stop || step == Start) && s.cfg.enforce
  {
    hide TaskOK, LockOK, FailuresOK;
    TaskHolds(s, t);
    PhaseViews(s.tasks[t], ViewOf(s, t), Escaped(s), s.cfg.errorHandler);
  }

  lemma ReportErrors(s: State, t: nat, step: Step)
    requires Inv(s) && ErrorsOK(s) && t < |s.tasks| && PhaseOf(s.tasks[t], step).Settled?
    ensures ErrorsOK(DoReport(s, t, step))
  {
    hide Inv, DoReport, Total, ShutdownFailure, Flat, BuildErrors, WithPhase;
    var s', err := DoReport(s, t, step), PhaseOf(s.tasks[t], step).err;
    ReportShape(s, t, step);
    ReportErrs(s, t, step);
    if s.pc == Done(false) { LateReport(s, t, step); }
    if step == Stop || step == Teardown {
      ReportAdds(s.tasks, t, step);
      assert multiset(s'.errs) == multiset(s.errs) + multiset(Flat(err));
      assert s'.errs[..s.built] == s.errs[..s.built];
    } else {
      PhasePhases(s.tasks[t], step, Reported(err));
      assert PhaseOf(s'.tasks[t], Stop) == s'.tasks[t].stop;
      assert PhaseOf(s'.tasks[t], Teardown) == s'.tasks[t].teardown;
      SameTotal(s.tasks, t, s'.tasks[t]);
    }
  }

  lemma SameTasksErrors(s: State, s': State)
    requires ErrorsOK(s) && SameErrors(s, s') && s'.tasks == s.tasks
    ensures ErrorsOK(s')
  {
    hide Total, ShutdownFailure;
  }

  lemma OwnErrors(s: State, err: Err)
    requires ErrorsOK(s) && s.pc != Done(false)
    ensures ErrorsOK(AddOwnErr(s, err))
  {
    hide Total, ShutdownFailure, Flat;
    assert multiset(s.errs + Flat(Some(err))) == multiset(s.errs) + multiset(Flat(Some(err)));
    assert multiset(s.ownErrs + Flat(Some(err))) == multiset(s.ownErrs) + multiset(Flat(Some(err)));
  }

  lemma TurnErrors(s: State)
    requires ErrorsOK(s) && s.pc.Turning? && ValidConfig(s.cfg)
    ensures ErrorsOK(DoTurn(s))
  {
    hide ErrorsOK, AddOwnErr, TimeoutError;
    if s.cfg.teardownTimeout > 0 && s.ctx.shut.Some? {
      var added := AddOwnErr(s, TimeoutError(s.ctx.shut.value));
      OwnErrors(s, TimeoutError(s.ctx.shut.value));
      AddOwnShape(s, TimeoutError(s.ctx.shut.value));
      SameTasksErrors(added, DoTurn(s));
    } else {
      SameTasksErrors(s, DoTurn(s));
    }
  }

  lemma AddOwnShape(s: State, err: Err)
    ensures AddOwnErr(s, err) == s.(errs := s.errs + Flat(Some(err)), ownErrs := s.ownErrs + Flat(Some(err)))
  {
  }

  lemma CloseErrors(s: State)
    requires ErrorsOK(s) && s.pc.Closing?
    ensures ErrorsOK(DoClose(s))
  {
    hide ErrorsOK, AddOwnErr, TimeoutError;
    if TeardownEnd(s).Some? {
      OwnErrors(s, TimeoutError(TeardownEnd(s).value));
      AddOwnShape(s, TimeoutError(TeardownEnd(s).value));
      SameTasksErrors(AddOwnErr(s, TimeoutError(TeardownEnd(s).value)), DoClose(s));
    } else {
      SameTasksErrors(s, DoClose(s));
    }
  }

  lemma BuildTheErrors(s: State)
    requires ErrorsOK(s) && s.pc.Building? && s.cause.Some?
    ensures ErrorsOK(DoBuild(s))
  {
    hide Total, ShutdownFailure, ExitCause, BuildErrors;
    assert s.errs[..|s.errs|] == s.errs;
  }

  lemma CheckErrors(s: State)
    requires Inv(s) && ErrorsOK(s) && s.pc.Scan? && s.pc.next < |s.tasks|
    ensures ErrorsOK(DoCheckNext(s))
  {
    hide Inv, ErrorsOK, DoCheckNext, CheckTask, ViewAt;
    var t := s.pc.next;
    CheckShape(s);
    if InStage(s, s.pc.stage, t) {
      CheckNotCalled(s);
      CheckReports(s.tasks[t], s.pc.step);
      ErrorsKept(s, DoCheckNext(s), t);
    } else {
      SameTasksErrors(s, DoCheckNext(s));
    }
  }

  lemma CheckReports(task: Task, step: Step)
    requires PhaseOf(task, step) == Idle
    ensures ReportOf(CheckTask(task, step).stop) == ReportOf(task.stop)
    ensures ReportOf(CheckTask(task, step).teardown) == ReportOf(task.teardown)
  {
  }

  lemma NotifyErrors(s: State)
    requires ErrorsOK(s) && s.pc.Skipping?
    ensures ErrorsOK(DoNotify(s))
  {
    hide ErrorsOK, SkipTask;
    var s', t := DoNotify(s), s.pc.next;
    if s'.tasks != s.tasks {
      SkipPhases(s.tasks[t], SkipCause(s, s.pc.early));
      assert PhaseOf(s'.tasks[t], Stop) == s'.tasks[t].stop && PhaseOf(s'.tasks[t], Teardown) == s'.tasks[t].teardown;
      ErrorsKept(s, s', t);
    } else {
      SameTasksErrors(s, s');
    }
  }

  lemma AddedErrors(s: State, s': State, spec: Spec)
    requires ErrorsOK(s) && SameErrors(s, s') && s'.tasks == s.tasks + [NewTask(spec)]
    ensures ErrorsOK(s')
  {
    assert ShutdownFailure()(NewTask(spec)) == multiset{};
    hide ShutdownFailure, NewTask, Total;
    TotalAppend(s.tasks, NewTask(spec), ShutdownFailure());
  }

  lemma OtherErrors(s: State, a: Action)
    requires ErrorsOK(s) && PcOK(s) && ValidConfig(s.cfg) && Enabled(s, a)
    requires !IsGoroutine(a) && !a.TaskReturn? && !a.CheckNext? && !a.Notify? && !a.Turn? && !a.Close? && !a.Build?
    ensures ErrorsOK(Apply(s, a))
  {
    hide ErrorsOK, TickClock, EndShut, EndDown, Serve, BuildErrors, MayProceed, NewTask;
    var s' := Apply(s, a);
    if a.Tick? { TickShape(s); }
    if a.CancelBase? { EndShape(s.(ctx := s.ctx.(base := Some(a.cause))), a.cause); }
    if a.Release? { ServeShape(s.(reg := s.reg.(lock := None)), s.reg.lock.value); }
    if s'.tasks == s.tasks {
      SameTasksErrors(s, s');
    } else {
      AddedErrors(s, s', s.reg.lock.value.request.add.spec);
    }
  }

  lemma EndingErrors(s: State, a: Action)
    requires ErrorsOK(s) && ValidConfig(s.cfg) && Enabled(s, a) && (a.Turn? || a.Close? || a.Build?)
    ensures ErrorsOK(Apply(s, a))
  {
    hide ErrorsOK, DoTurn, DoClose, DoBuild;
    if a.Turn? { TurnErrors(s); }
    else if a.Close? { CloseErrors(s); }
    else { BuildTheErrors(s); }
  }

  lemma StepErrors(s: State, a: Action)
    requires Inv(s) && ErrorsOK(s) && ValidConfig(s.cfg) && Enabled(s, a)
    ensures ErrorsOK(Apply(s, a))
  {
    assert PcOK(s) by { hide TasksOK; }
    hide Inv, ErrorsOK, PcOK, Apply, Enabled;
    if a.Report? || a.Notify? || a.CheckNext? { TaskErrors(s, a); }
    else if a.Turn? || a.Close? || a.Build? { EndingErrors(s, a); }
    else if IsGoroutine(a) || a.TaskReturn? { MoveErrors(s, a); }
    else { OtherErrors(s, a); }
  }

  lemma TaskErrors(s: State, a: Action)
    requires Inv(s) && ErrorsOK(s) && ValidConfig(s.cfg) && Enabled(s, a) && (a.Report? || a.Notify? || a.CheckNext?)
    ensures ErrorsOK(Apply(s, a))
  {
    hide Inv, ErrorsOK, DoReport, DoNotify, DoCheckNext;
    if a.Report? { ReportErrors(s, a.task, a.step); }
    else if a.Notify? { NotifyErrors(s); }
    else { CheckErrors(s); }
  }

  // ---------- the clock ----------

  /** What the manager adds when the shutdown timeout has expired by the time the teardown begins. */
  function TurnTimeout(cfg: Config, clock: Clock): seq<Err> {
    if cfg.teardownTimeout > 0 && cfg.shutdownTimeout > 0 && clock.turnAt >= clock.shutAt + cfg.shutdownTimeout then
      [ErrShutdownTimeout]
    else []
  }

  /** What it adds at the end: the teardown has its own timeout, or shares that of the shutdown. */
  function CloseTimeout(cfg: Config, clock: Clock): seq<Err> {
    if cfg.teardownTimeout > 0 then
      if clock.closeAt >= clock.turnAt + cfg.teardownTimeout then [ErrShutdownTimeout] else []
    else
      if cfg.shutdownTimeout > 0 && clock.closeAt >= clock.shutAt + cfg.shutdownTimeout then [ErrShutdownTimeout]
      else []
  }

  function Expired(due: bool): Option<Err> { if due then Some(DeadlineExceeded) else None }

  predicate ClockOK(s: State) {
    && (ShutOpen(s.pc) && ShutDue(s) ==> s.ctx.shut.Some?)
    && (ShutOpen(s.pc) ==> s.clock.shutAt <= s.clock.now)
    && (DownOpen(s.pc) ==> s.clock.turnAt <= s.clock.now)
    && (s.ctx.base == None ==>
          && (ShutOpen(s.pc) ==> s.ctx.shut == Expired(ShutDue(s)))
          && (DownOpen(s.pc) && s.cfg.teardownTimeout > 0 ==> s.ctx.down == Expired(DownDue(s)))
          && s.ownErrs == (
               if s.pc == Building || s.pc == Done(false) then
                 TurnTimeout(s.cfg, s.clock) + CloseTimeout(s.cfg, s.clock)
               else if DownOpen(s.pc) then TurnTimeout(s.cfg, s.clock)
               else []))
    && (s.ctx.base.Some? ==>
          && (ShutOpen(s.pc) ==> s.ctx.shut == s.ctx.base || (ShutDue(s) && s.ctx.shut == Some(DeadlineExceeded)))
          && (DownOpen(s.pc) && s.cfg.teardownTimeout > 0 ==>
                s.ctx.down == s.ctx.base || (DownDue(s) && s.ctx.down == Some(DeadlineExceeded))))
  }

  lemma SameClock(s: State, s': State)
    requires ClockOK(s) && s'.cfg == s.cfg && s'.clock == s.clock && s'.ownErrs == s.ownErrs
    requires s'.ctx.shut == s.ctx.shut && s'.ctx.down == s.ctx.down && s'.ctx.base == s.ctx.base
    requires ShutOpen(s'.pc) == ShutOpen(s.pc) && DownOpen(s'.pc) == DownOpen(s.pc)
    requires (s'.pc == Building || s'.pc == Done(false)) == (s.pc == Building || s.pc == Done(false))
    ensures ClockOK(s')
  {
  }

  lemma TickKeepsClock(s: State)
    requires ClockOK(s)
    ensures ClockOK(TickClock(s))
  {
  }

  lemma BaseKeepsClock(s: State, cause: Err)
    requires ClockOK(s)
    ensures ClockOK(DoCancelBase(s, cause))
  {
  }

  lemma SelectKeepsClock(s: State, caller: bool)
    requires ClockOK(s) && s.pc.Selecting? && ValidConfig(s.cfg)
    ensures ClockOK(DoSelect(s, caller))
  {
  }

  lemma TurnKeepsClock(s: State)
    requires ClockOK(s) && s.pc.Turning? && ValidConfig(s.cfg)
    ensures ClockOK(DoTurn(s))
  {
    assert Is(DeadlineExceeded, DeadlineExceeded);
  }

  lemma CloseKeepsClock(s: State)
    requires ClockOK(s) && s.pc.Closing?
    ensures ClockOK(DoClose(s))
  {
    assert Is(DeadlineExceeded, DeadlineExceeded);
  }

  lemma BuildKeepsClock(s: State)
    requires ClockOK(s) && s.pc.Building? && s.cause.Some?
    ensures ClockOK(DoBuild(s))
  {
    hide ExitCause, BuildErrors;
  }

  lemma MoveKeepsClock(s: State, a: Action)
    requires ClockOK(s) && ValidConfig(s.cfg) && Enabled(s, a) && (IsGoroutine(a) || a.TaskReturn?)
    ensures ClockOK(Apply(s, a))
  {
    hide PrepareTask, BeginTask, ReturnTask, SettleTask, WithPhase, PhaseOf, Plausible, ClockOK, Flat;
    SameClock(s, Apply(s, a));
  }

  lemma BeforeKeepsClock(s: State, a: Action)
    requires ClockOK(s) && PcOK(s) && ValidConfig(s.cfg) && Enabled(s, a)
    requires a.ReadRegistry? || a.RunHooks? || a.Publish? || a.ApplyPending?
    ensures ClockOK(Apply(s, a))
  {
    hide ClockOK;
    SameClock(s, Apply(s, a));
  }

  lemma WalkKeepsClock(s: State, a: Action)
    requires ClockOK(s) && PcOK(s) && ValidConfig(s.cfg) && Enabled(s, a) && (a.EndScan? || a.Proceed?)
    ensures ClockOK(Apply(s, a))
  {
    hide ClockOK, BuildErrors, MayProceed;
    SameClock(s, Apply(s, a));
  }

  lemma ManagerKeepsClock(s: State, a: Action)
    requires ClockOK(s) && PcOK(s) && ValidConfig(s.cfg) && Enabled(s, a) && (a.Notify? || a.Drained?)
    ensures ClockOK(Apply(s, a))
  {
    hide ClockOK, SkipTask, AllStartsOver;
    SameClock(s, Apply(s, a));
  }

  lemma CheckKeepsClock(s: State)
    requires Inv(s) && ClockOK(s) && s.pc.Scan? && s.pc.next < |s.tasks|
    ensures ClockOK(DoCheckNext(s))
  {
    hide Inv, ClockOK, DoCheckNext;
    CheckShape(s);
    SameClock(s, DoCheckNext(s));
  }

  lemma CallerKeepsClock(s: State, a: Action)
    requires ClockOK(s) && ValidConfig(s.cfg) && Enabled(s, a)
    requires a.CallRun? || a.CancelCaller? || a.Enter? || a.Release?
    ensures ClockOK(Apply(s, a))
  {
    hide ClockOK, Serve;
    if a.Release? { ServeShape(s.(reg := s.reg.(lock := None)), s.reg.lock.value); }
    SameClock(s, Apply(s, a));
  }

  lemma StepClock(s: State, a: Action)
    requires Inv(s) && ClockOK(s) && ValidConfig(s.cfg) && Enabled(s, a)
    ensures ClockOK(Apply(s, a))
  {
    assert PcOK(s) by { hide TasksOK; }
    hide Inv, ClockOK, PcOK;
    if IsGoroutine(a) || a.TaskReturn? { MoveKeepsClock(s, a); }
    else if a.Tick? { TickKeepsClock(s); }
    else if a.CancelBase? { BaseKeepsClock(s, a.cause); }
    else if a.CheckNext? { CheckKeepsClock(s); }
    else if a.Select? { SelectKeepsClock(s, a.caller); }
    else if a.Turn? { TurnKeepsClock(s); }
    else if a.Close? { CloseKeepsClock(s); }
    else if a.Build? { BuildKeepsClock(s); }
    else if a.EndScan? || a.Proceed? { WalkKeepsClock(s, a); }
    else if a.Notify? || a.Drained? { ManagerKeepsClock(s, a); }
    else if IsManager(a) { BeforeKeepsClock(s, a); }
    else { CallerKeepsClock(s, a); }
  }
}
