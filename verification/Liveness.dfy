/** When a run can move, and the one way in which it can wait forever. */
module Liveness {
  import opened Errors
  import opened Steps
  import opened Lifecycle
  import opened TaskInvariant
  import opened Totals
  import opened Invariant
  import opened History
  import opened Order
  import opened Cancels
  import opened Causes
  import opened Measure

  // ---------- the start steps that were counted ----------

  /** Run went on after counting the start steps. */
  predicate Counted(pc: PC) { !pc.Fresh? && !pc.Claimed? && !EarlyExit(pc) }

  /** As long as no setup takes a start step away, the one that was counted is still there. */
  predicate CountOK(s: State) { s.cfg.keepsStart && Counted(s.pc) ==> HasStartTask(s) }

  lemma MoveKeepsStart(s: State, a: Action)
    requires ValidConfig(s.cfg) && Enabled(s, a) && (IsGoroutine(a) || a.TaskReturn?) && s.cfg.keepsStart
    ensures Start in s.tasks[a.task].has ==> Start in Apply(s, a).tasks[a.task].has
  {
    hide Apply, Enabled;
    MoveParts(s, a);
  }

  lemma ManagerKeepsHas(s: State, a: Action, t: nat)
    requires Inv(s) && ValidConfig(s.cfg) && Enabled(s, a) && IsManager(a) && t < |s.tasks|
    ensures |Apply(s, a).tasks| == |s.tasks| && Apply(s, a).tasks[t].has == s.tasks[t].has
  {
    hide Inv, InvalidOrder, CheckTask, SkipTask, DoCheckNext;
    if a.CheckNext? {
      CheckShape(s);
      CheckHas(s.tasks[s.pc.next], s.pc.step);
    } else if a.Notify? {
      if s.pc.next < |s.tasks| { SkipHas(s.tasks[s.pc.next], SkipCause(s, s.pc.early)); }
    } else {
      hide Apply, Enabled;
      ManagerKeepsTasks(s, a);
    }
  }

  lemma CheckHas(task: Task, step: Step)
    ensures CheckTask(task, step).has == task.has
  {
  }

  lemma SkipHas(task: Task, cause: Option<Err>)
    ensures SkipTask(task, cause).has == task.has
  {
  }

  lemma StartKept(s: State, a: Action, t: nat)
    requires Inv(s) && ValidConfig(s.cfg) && Enabled(s, a) && s.cfg.keepsStart && t < |s.tasks|
    ensures t < |Apply(s, a).tasks| && (Start in s.tasks[t].has ==> Start in Apply(s, a).tasks[t].has)
  {
    hide Inv;
    if IsGoroutine(a) || a.TaskReturn? {
      MoveKeepsStart(s, a);
      hide Apply;
      MoveKeepsSpec(s, a);
    } else if IsManager(a) {
      hide Apply;
      ManagerKeepsHas(s, a, t);
    } else {
      hide TickClock, EndShut, EndDown, Serve;
      if a.Tick? { TickShape(s); }
      if a.CancelBase? { EndShape(s.(ctx := s.ctx.(base := Some(a.cause))), a.cause); }
      if a.Release? { ServeShape(s.(reg := s.reg.(lock := None)), s.reg.lock.value); }
    }
  }

  lemma CountsKept(s: State, a: Action)
    requires ValidConfig(s.cfg) && Enabled(s, a) && Inv(s) && !Counted(s.pc) && Counted(Apply(s, a).pc)
    ensures HasStartTask(Apply(s, a))
  {
    hide Inv, PrepareTask, BeginTask, ReturnTask, SettleTask, WithPhase, DoReport, Serve, TickClock, EndShut, EndDown;
    hide DoCheckNext, MayProceed, Flat, SkipTask, HasStartTask;
    if a.Report? { ReportShape(s, a.task, a.step); }
    if a.Tick? { TickShape(s); }
    if a.CancelBase? { EndShape(s.(ctx := s.ctx.(base := Some(a.cause))), a.cause); }
    if a.Release? { ServeShape(s.(reg := s.reg.(lock := None)), s.reg.lock.value); }
    if a.ReadRegistry? { SameHas(s, Apply(s, a)); }
  }

  lemma SameHas(s: State, s': State)
    requires s'.tasks == s.tasks
    ensures HasStartTask(s') == HasStartTask(s)
  {
  }

  lemma StepCount(s: State, a: Action)
    requires Inv(s) && ValidConfig(s.cfg) && CountOK(s) && Enabled(s, a)
    ensures CountOK(Apply(s, a))
  {
    hide Inv, Apply, Enabled, Counted;
    var s' := Apply(s, a);
    ConfigKept(s, a);
    if s'.cfg.keepsStart && Counted(s'.pc) {
      if Counted(s.pc) {
        var t :| 0 <= t < |s.tasks| && Start in s.tasks[t].has;
        StartKept(s, a, t);
      } else {
        CountsKept(s, a);
      }
    }
  }

  // ---------- why the startup context ends ----------

  /** A cancel of the startup context has a reason: a request, a failed setup, or a start step that returned. */
  predicate Reason(s: State) {
    || s.reg.requests > 0
    || s.setupErrs != []
    || exists t :: 0 <= t < |s.tasks| && StartReported(s.tasks[t])
  }

  predicate ReasonOK(s: State) {
    && (s.ctx.cancels != [] ==> Reason(s))
    && (s.reg.pending.Some? ==> s.reg.requests > 0)
    && (s.ctx.startup.Some? ==> s.ctx.caller.Some? || s.ctx.cancels != [])
  }

  lemma ReportReasonShape(s: State, t: nat, step: Step)
    requires t < |s.tasks| && PhaseOf(s.tasks[t], step).Settled?
    ensures var s' := DoReport(s, t, step);
      && s'.ctx.caller == s.ctx.caller && (s'.ctx.startup.Some? ==> s.ctx.startup.Some? || s'.ctx.cancels != [])
      && (s'.ctx != s.ctx ==> step == Start || s'.setupErrs != [])
      && (s'.setupErrs == s.setupErrs || s'.setupErrs != [])
      && (s.ctx.cancels != [] ==> s'.ctx.cancels != [])
  {
    hide WithPhase;
  }

  lemma ReportReason(s: State, t: nat, step: Step)
    requires ReasonOK(s) && t < |s.tasks| && PhaseOf(s.tasks[t], step).Settled?
    ensures ReasonOK(DoReport(s, t, step))
  {
    hide DoReport, WithPhase;
    var s', err := DoReport(s, t, step), PhaseOf(s.tasks[t], step).err;
    ReportShape(s, t, step);
    ReportReasonShape(s, t, step);
    PhasePhases(s.tasks[t], step, Reported(err));
    assert PhaseOf(s'.tasks[t], Start) == s'.tasks[t].start && PhaseOf(s.tasks[t], Start) == s.tasks[t].start;
    if step == Start {
      assert StartReported(s'.tasks[t]);
    } else if s'.ctx == s.ctx && s'.setupErrs == s.setupErrs {
      ReasonKept(s, s');
    }
  }

  lemma ReasonKept(s: State, s': State)
    requires ReasonOK(s) && s'.ctx.cancels == s.ctx.cancels && s'.ctx.startup == s.ctx.startup
    requires s'.ctx.caller == s.ctx.caller && s'.reg.pending == s.reg.pending && s'.reg.requests >= s.reg.requests
    requires s.setupErrs != [] ==> s'.setupErrs == s.setupErrs
    requires |s.tasks| <= |s'.tasks|
    requires forall t :: 0 <= t < |s.tasks| && StartReported(s.tasks[t]) ==> StartReported(s'.tasks[t])
    ensures ReasonOK(s')
  {
    if exists u :: 0 <= u < |s.tasks| && StartReported(s.tasks[u]) {
      var u :| 0 <= u < |s.tasks| && StartReported(s.tasks[u]);
      assert StartReported(s'.tasks[u]);
    }
  }

  lemma MoveReason(s: State, a: Action)
    requires ReasonOK(s) && ValidConfig(s.cfg) && Enabled(s, a)
    requires (IsGoroutine(a) || a.TaskReturn?) && !a.Report?
    ensures ReasonOK(Apply(s, a))
  {
    hide Apply, Enabled, ReasonOK;
    var s' := Apply(s, a);
    MoveReports(s, a);
    ReasonKept(s, s');
  }

  lemma CheckReason(s: State)
    requires Inv(s) && ReasonOK(s) && s.pc.Scan? && s.pc.next < |s.tasks|
    ensures ReasonOK(DoCheckNext(s))
  {
    hide Inv, ReasonOK, DoCheckNext, CheckTask;
    var t := s.pc.next;
    CheckShape(s);
    if InStage(s, s.pc.stage, t) {
      CheckNotCalled(s);
      CheckStartKept(s.tasks[t], s.pc.step);
    }
    ReasonKept(s, DoCheckNext(s));
  }

  lemma CheckStartKept(task: Task, step: Step)
    requires PhaseOf(task, step) == Idle
    ensures StartReported(task) ==> StartReported(CheckTask(task, step))
  {
  }

  lemma ManagerReason(s: State, a: Action)
    requires ReasonOK(s) && PcOK(s) && ValidConfig(s.cfg) && Enabled(s, a) && IsManager(a)
    requires !a.CheckNext? && !a.Publish? && !a.ApplyPending? && !a.Notify?
    requires s.pc.Await? && s.pc.step == Start ==> s.setupErrs == []
    ensures ReasonOK(Apply(s, a))
  {
    hide ReasonOK, Flat, BuildErrors, ExitCause, TimeoutError, MayProceed, HasStartTask, AllStartsOver;
    ReasonKept(s, Apply(s, a));
  }

  lemma NotifyReason(s: State)
    requires ReasonOK(s) && s.pc.Skipping?
    ensures ReasonOK(DoNotify(s))
  {
    hide ReasonOK, SkipTask;
    if s.pc.next < |s.tasks| {
      SkipPhases(s.tasks[s.pc.next], SkipCause(s, s.pc.early));
      assert PhaseOf(SkipTask(s.tasks[s.pc.next], SkipCause(s, s.pc.early)), Start) == s.tasks[s.pc.next].start;
    }
    ReasonKept(s, DoNotify(s));
  }

  lemma PublishReason(s: State)
    requires ReasonOK(s) && s.pc.Publishing? && s.ctx.cancels == []
    ensures ReasonOK(DoPublish(s))
  {
  }

  lemma ApplyReason(s: State)
    requires ReasonOK(s) && s.pc.Applying?
    requires s.setupErrs == []
    ensures ReasonOK(DoApplyPending(s))
  {
  }

  lemma CallerReason(s: State, a: Action)
    requires ReasonOK(s) && ValidConfig(s.cfg) && Enabled(s, a) && !Own(a) && !a.Release?
    ensures ReasonOK(Apply(s, a))
  {
    hide TickClock, EndShut, EndDown;
    if a.CancelCaller? {
    } else {
      hide ReasonOK;
      if a.Tick? { TickShape(s); }
      if a.CancelBase? { EndShape(s.(ctx := s.ctx.(base := Some(a.cause))), a.cause); }
      ReasonKept(s, Apply(s, a));
    }
  }

  lemma ReleaseReason(s: State)
    requires ReasonOK(s) && ValidConfig(s.cfg) && s.reg.lock.Some?
    ensures ReasonOK(Apply(s, Release))
  {
    var freed, holder := s.(reg := s.reg.(lock := None)), s.reg.lock.value;
    var s' := Serve(freed, holder);
    ServeShape(freed, holder);
    if s'.reg.requests == s.reg.requests {
      NoRequestMade(freed, holder);
      hide ReasonOK, Serve;
      ReasonKept(s, s');
    } else {
      ServeCounts(freed, holder);
      hide Serve;
    }
  }

  lemma ServeCounts(s: State, holder: Holder)
    requires Serve(s, holder).reg.requests != s.reg.requests
    ensures Serve(s, holder).reg.requests > 0
    ensures Serve(s, holder).ctx.startup.Some? ==> s.ctx.startup.Some? || Serve(s, holder).ctx.cancels != []
  {
  }

  lemma StepReason(s: State, a: Action)
    requires Inv(s) && CausesOK(s) && ReasonOK(s) && ValidConfig(s.cfg) && Enabled(s, a)
    ensures ReasonOK(Apply(s, a))
  {
    assert PcOK(s) && FailuresOK(s) by { hide TasksOK; }
    assert s.pc.Applying? ==> s.setupErrs == [];
    assert s.pc.Await? && s.pc.step == Start ==> s.setupErrs == [];
    assert s.pc.Publishing? ==> s.ctx.cancels == [];
    hide Inv, CausesOK, CancelsOK, ReasonOK, PcOK, FailuresOK;
    if a.Report? { ReportReason(s, a.task, a.step); }
    else if IsGoroutine(a) || a.TaskReturn? { MoveReason(s, a); }
    else if a.CheckNext? { CheckReason(s); }
    else if a.Notify? { NotifyReason(s); }
    else if a.Publish? { PublishReason(s); }
    else if a.ApplyPending? { ApplyReason(s); }
    else if IsManager(a) { hide Apply, Enabled; ManagerReason(s, a); }
    else if a.Release? { ReleaseReason(s); }
    else { CallerReason(s, a); }
  }

  // ---------- moving on ----------

  /** The manager, a goroutine, or the caller that holds the mutex can move. */
  ghost predicate CanMove(s: State) {
    exists a :: (IsManager(a) || IsGoroutine(a) || a.Release?) && Enabled(s, a)
  }

  /** A task is inside its own code. */
  predicate InCall(s: State) {
    exists t, step: Step :: 0 <= t < |s.tasks| && PhaseOf(s.tasks[t], step) == Calling
  }

  lemma Moves(s: State, a: Action)
    requires (IsManager(a) || IsGoroutine(a) || a.Release?) && Enabled(s, a)
    ensures CanMove(s)
  {
  }

  /** A step in a wait group moves, or is inside its task. */
  lemma LiveMoves(s: State, t: nat, step: Step)
    requires t < |s.tasks| && Live(PhaseOf(s.tasks[t], step))
    ensures CanMove(s) || InCall(s)
  {
    match PhaseOf(s.tasks[t], step) {
      case Launched => Moves(s, Prepare(t, step));
      case Ready => Moves(s, Begin(t, step));
      case Calling => assert PhaseOf(s.tasks[t], step) == Calling;
      case Returned(_) => Moves(s, Settle(t, step));
      case Settled(_) => Moves(s, Report(t, step));
      case Reported(_) => Moves(s, Exit(t, step));
    }
  }

  /** The run waits for a first task to return, none was started, and nobody asked it to end. */
  predicate Abandoned(s: State) {
    && s.pc.Selecting? && s.reg.lock == None
    && s.ctx.caller == None && s.reg.requests == 0 && s.failed == None
    && forall t :: 0 <= t < |s.tasks| ==> s.tasks[t].start == Idle
  }

  lemma AwaitMoves(s: State)
    requires s.pc.Await?
    ensures CanMove(s) || InCall(s)
  {
    hide CanMove, InCall;
    var step, stage := s.pc.step, s.pc.stage;
    if MayProceed(s, step, stage) {
      Moves(s, Proceed);
    } else if step == Start {
      var t :| 0 <= t < |s.tasks| && s.tasks[t].spec.stage == stage && s.tasks[t].start == Launched;
      assert Live(PhaseOf(s.tasks[t], Start));
      LiveMoves(s, t, Start);
    } else {
      var t :| 0 <= t < |s.tasks| && s.tasks[t].spec.stage == stage && Live(PhaseOf(s.tasks[t], step));
      LiveMoves(s, t, step);
    }
  }

  lemma SelectMoves(s: State)
    requires Inv(s) && CausesOK(s) && s.pc.Selecting? && !CanMove(s) && !InCall(s)
    ensures Abandoned(s)
  {
    hide CanMove, InCall, TaskOK;
    if s.ctx.caller.Some? { Moves(s, Select(true)); }
    if s.ctx.startup.Some? { Moves(s, Select(false)); }
    if s.reg.lock.Some? { Moves(s, Release); }
    forall t | 0 <= t < |s.tasks|
      ensures s.tasks[t].start == Idle
    {
      TaskHolds(s, t);
      StartNeverQuits(s.tasks[t], ViewOf(s, t), Escaped(s), s.cfg.errorHandler);
      if Live(s.tasks[t].start) {
        assert PhaseOf(s.tasks[t], Start) == s.tasks[t].start;
        LiveMoves(s, t, Start);
      }
    }
  }

  lemma StartNeverQuits(task: Task, v: View, esc: bool, eh: ErrorHandler)
    requires TaskOK(task, v, esc, eh)
    ensures task.start != Quit
    ensures v.start >= 1 && task.start == Idle ==> Start !in task.has
    ensures task.start != Idle ==> Start in task.has
    ensures v.start == 2 && v.setup == 3 ==> !Live(task.setup)
  {
  }

  lemma DrainMoves(s: State)
    requires s.pc.Draining?
    ensures CanMove(s) || InCall(s)
  {
    hide CanMove, InCall;
    if AllStartsOver(s) {
      Moves(s, Drained);
    } else {
      var t :| 0 <= t < |s.tasks| && Live(s.tasks[t].start);
      assert PhaseOf(s.tasks[t], Start) == s.tasks[t].start;
      LiveMoves(s, t, Start);
    }
  }

  lemma LockMoves(s: State)
    requires s.pc.Claimed? || s.pc.Publishing?
    ensures CanMove(s)
  {
    hide CanMove, HasStartTask;
    if s.reg.lock.Some? { Moves(s, Release); }
    else if s.pc.Claimed? { Moves(s, ReadRegistry); }
    else { Moves(s, Publish); }
  }

  lemma OtherMoves(s: State)
    requires s.pc.Building? ==> s.cause.Some?
    requires s.pc.Scan? ==> s.pc.next <= |s.tasks|
    requires !s.pc.Fresh? && !s.pc.Done? && !s.pc.Selecting? && !s.pc.Await? && !s.pc.Draining?
    ensures CanMove(s)
  {
    hide CanMove;
    if s.pc.Claimed? || s.pc.Publishing? { LockMoves(s); }
    else if s.pc.Scan? {
      hide HasStartTask;
      if s.pc.next < |s.tasks| { Moves(s, CheckNext); } else { Moves(s, EndScan); }
    } else {
      hide HasStartTask;
      Moves(s, match s.pc
               case Hooking => RunHooks(None)
               case Applying => ApplyPending
               case Skipping(_, _, _) => Notify
               case Turning => Turn
               case Closing => Close
               case _ => Build);
    }
  }

  /** An abandoned run cannot move: the goroutines are over, and the contexts have no reason to end. */
  lemma AbandonedWaits(s: State)
    requires Inv(s) && ReasonOK(s) && Abandoned(s)
    ensures !CanMove(s) && !InCall(s)
  {
    assert s.ctx.startup == None by {
      NoSetupErrors(s);
      hide Inv;
      NoReason(s);
    }
    hide Inv, ReasonOK, Enabled;
    AllQuiet(s);
    forall a | IsManager(a) || IsGoroutine(a) || a.Release?
      ensures !Enabled(s, a)
    {
      QuietSelecting(s, a);
    }
  }

  lemma QuietSelecting(s: State, a: Action)
    requires s.pc.Selecting? && s.ctx.caller == None && s.ctx.startup == None && s.reg.lock == None
    requires forall t, step :: 0 <= t < |s.tasks| ==> !Live(PhaseOf(s.tasks[t], step))
    requires IsManager(a) || IsGoroutine(a) || a.Release?
    ensures !Enabled(s, a)
  {
    if IsGoroutine(a) && a.task < |s.tasks| {
      assert !Live(PhaseOf(s.tasks[a.task], a.step));
    }
    hide PhaseOf;
  }

  lemma NoSetupErrors(s: State)
    requires Inv(s) && s.pc.Selecting? && s.failed == None
    ensures s.setupErrs == []
  {
    hide TasksOK;
  }

  lemma NoReason(s: State)
    requires ReasonOK(s) && Abandoned(s) && s.setupErrs == []
    ensures s.ctx.startup == None
  {
  }

  lemma AllQuiet(s: State)
    requires Inv(s) && Abandoned(s)
    ensures forall t, step :: 0 <= t < |s.tasks| ==> !Live(PhaseOf(s.tasks[t], step))
  {
    hide TaskOK, LockOK;
    forall t, step | 0 <= t < |s.tasks|
      ensures !Live(PhaseOf(s.tasks[t], step))
    {
      TaskHolds(s, t);
      SelectingPhases(s.tasks[t], step, ViewOf(s, t), Escaped(s), s.cfg.errorHandler);
    }
  }

  lemma SelectingPhases(task: Task, step: Step, v: View, esc: bool, eh: ErrorHandler)
    requires TaskOK(task, v, esc, eh) && v.setup != 1 && v.stop == 0 && v.down == 0 && task.start == Idle
    ensures !Live(PhaseOf(task, step))
  {
  }
}
