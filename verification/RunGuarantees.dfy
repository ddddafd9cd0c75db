/** What the caller of a run can rely on: that it ends, with which error, and by when. */
module RunGuarantees {
  import opened Errors
  import opened Steps
  import opened Lifecycle
  import opened TaskInvariant
  import opened Totals
  import opened Invariant
  import opened History
  import opened Order
  import opened Cancels
  import opened Causes
  import opened Shutdown
  import opened Outcomes
  import opened Measure
  import opened Liveness
  import opened AllRuns
  import opened StepGuarantees

  // ---------- the run ends ----------

  /**
   * A run that was called and did not return can move, is inside the code of a task, or is abandoned: all setups
   * succeeded, no start step was ever launched, and nobody asked it to end. Only then does it wait forever.
   */
  lemma WaitsOnlyWhenAbandoned(s: State)
    requires Reachable(s) && !s.pc.Fresh? && !s.pc.Done?
    ensures !CanMove(s) && !InCall(s) <==> Abandoned(s)
  {
    hide Reachable, Inv, CausesOK, CancelsOK, ReasonOK, CountOK, OrdinaryOK, OutOK, CanMove, InCall, Abandoned;
    ReachableCauses(s);
    if Abandoned(s) { AbandonedWaits(s); }
    if s.pc.Selecting? {
      if !CanMove(s) && !InCall(s) { SelectMoves(s); }
    } else {
      if s.pc.Await? { AwaitMoves(s); }
      else if s.pc.Draining? { DrainMoves(s); }
      else { BuildingHasCause(s); OtherMoves(s); }
      SelectingOnly(s);
    }
  }

  lemma BuildingHasCause(s: State)
    requires Inv(s) && CausesOK(s)
    ensures s.pc.Building? ==> s.cause.Some?
    ensures s.pc.Scan? ==> s.pc.next <= |s.tasks|
  {
    hide TasksOK;
  }

  lemma SelectingOnly(s: State)
    ensures Abandoned(s) ==> s.pc.Selecting?
  {
  }

  /** A waiting run that nobody asked to end is abandoned exactly when no task has a start step any more. */
  lemma AbandonedExactly(s: State)
    requires Reachable(s)
    ensures Abandoned(s) <==>
              && s.pc.Selecting? && s.reg.lock == None && s.ctx.caller == None && s.reg.requests == 0
              && s.failed == None && !HasStartTask(s)
  {
    hide Reachable, Inv, CausesOK, CancelsOK, ReasonOK, CountOK, OrdinaryOK, OutOK, ViewOf, TaskOK;
    ReachableCauses(s);
    if s.pc.Selecting? && s.failed == None {
      forall t | 0 <= t < |s.tasks|
        ensures s.tasks[t].start == Idle <==> Start !in s.tasks[t].has
      {
        TaskHolds(s, t);
        SelectingView(s, t);
        StartNeverQuits(s.tasks[t], ViewOf(s, t), Escaped(s), s.cfg.errorHandler);
      }
    }
  }

  /** When no setup takes a start step away from its task, a run is never abandoned. */
  lemma NeverAbandoned(s: State)
    requires Reachable(s) && s.cfg.keepsStart
    ensures !Abandoned(s)
  {
    hide Reachable, Inv, CausesOK, CancelsOK, ReasonOK, OrdinaryOK, OutOK, Abandoned, HasStartTask;
    ReachableCauses(s);
    AbandonedExactly(s);
  }

  lemma SelectingView(s: State, t: nat)
    requires Inv(s) && t < |s.tasks| && s.pc.Selecting? && s.failed == None
    ensures ViewOf(s, t).start >= 1
  {
    hide TaskOK;
  }

  /**
   * Without a move to make and without a task inside its own code, the run has returned, unless it waits for a first
   * task and no task has a start step any more.
   */
  lemma RunReturns(s: State)
    requires Reachable(s) && !s.pc.Fresh? && !CanMove(s) && !InCall(s)
    ensures s.pc.Done? <==> !s.pc.Selecting? || s.cfg.keepsStart || HasStartTask(s)
    ensures s.pc.Done? ==> s.out.Some?
  {
    hide Reachable, Inv, CausesOK, CancelsOK, ReasonOK, CountOK, OrdinaryOK, CanMove, InCall, Abandoned, HasStartTask;
    if !s.pc.Done? {
      WaitsOnlyWhenAbandoned(s);
      AbandonedExactly(s);
      if s.cfg.keepsStart { NeverAbandoned(s); }
    }
    ReachableCauses(s);
  }

  /**
   * From the moment its tasks are fixed, a run with `k` stages and `n` tasks makes a bounded number of moves of its
   * own, whatever else happens and in whatever order.
   */
  lemma MovesBounded(s: State, acts: seq<Action>, s': State)
    requires Reachable(s) && s.pc.Hooking? && Path(s, acts, s')
    ensures OwnMoves(acts) <= 10 + 5 * s.cfg.stages * (|s.tasks| + 2) + 29 * |s.tasks|
  {
    LeftAtFirst(s);
    hide Reachable, Inv, CausesOK, CancelsOK, ReasonOK, CountOK, OrdinaryOK, OutOK, Path, OwnMoves, Left;
    ReachableCauses(s);
    PathInv(s, acts, s');
    OwnMovesBounded(s, acts, s');
    assert Left(s') >= 0 by { InvLeft(s'); }
  }

  lemma InvLeft(s: State)
    requires Inv(s)
    ensures Left(s) >= 0
  {
    assert PcOK(s) by { hide TasksOK; }
    hide Inv, PcOK, Left;
    LeftPositive(s);
  }

  lemma LeftAtFirst(s: State)
    requires s.pc.Hooking?
    ensures Left(s) <= 10 + 5 * s.cfg.stages * (|s.tasks| + 2) + 29 * |s.tasks|
  {
    hide TasksLeft;
    TasksLeftBound(s.tasks);
    HookingLeft(s.cfg.stages, |s.tasks|);
  }

  lemma HookingLeft(k: nat, n: nat)
    ensures PcLeft(Hooking, k, n) == 10 + 5 * k * (n + 2) + n
  {
    var w := n + 2;
    assert 3 * k * w + 2 * k * w == 5 * k * w;
  }

  lemma {:induction false} TasksLeftBound(tasks: seq<Task>)
    ensures 0 <= TasksLeft(tasks) <= 28 * |tasks|
    decreases |tasks|
  {
    if tasks != [] { TasksLeftBound(tasks[..|tasks| - 1]); }
  }

  // ---------- why it ends ----------

  /**
   * The cause of exit: the error of the failed setups; or, when neither a setup failed nor the caller's context ended,
   * the first error given to the startup cancel. `ErrExit` in it means a normal exit.
   */
  lemma ExitCauseIsFirst(s: State)
    requires Reachable(s) && s.pc == Done(false)
    ensures s.out.Some? && s.cause.Some?
    ensures s.failed.Some? ==> s.cause == s.failed
    ensures s.failed == None && s.ctx.caller == None ==> s.ctx.cancels != [] && s.cause == Some(s.ctx.cancels[0].cause)
    ensures s.failed == None ==>
              s.cause == s.ctx.caller || (s.ctx.cancels != [] && s.cause == Some(s.ctx.cancels[0].cause))
    ensures s.out.value.cause == if Is(s.cause.value, ErrExit) then None else s.cause
  {
    hide Reachable, Inv, ReasonOK, CountOK, OrdinaryOK;
    ReachableCauses(s);
    assert PublishedWhenDone(s) by { hide CausesOK, OutOK; DonePublished(s); }
  }

  /** The calls of the startup cancel: who made them, and with what. */
  lemma EachCancelOnce(s: State, t: nat)
    requires Reachable(s) && t < |s.tasks|
    ensures StartReported(s.tasks[t]) <==>
              exists i :: 0 <= i < |s.ctx.cancels| && s.ctx.cancels[i].origin == FromTask(t, Start)
    ensures forall i :: 0 <= i < |s.ctx.cancels| && s.ctx.cancels[i].origin == FromTask(t, Start) ==>
              && s.ctx.cancels[i].cause == ErrorOrExit(s.tasks[t].start.err)
              && (forall j :: 0 <= j < |s.ctx.cancels| && s.ctx.cancels[j].origin == FromTask(t, Start) ==> i == j)
  {
    hide Reachable, Inv, CausesOK, ReasonOK, CountOK, OrdinaryOK, OutOK;
    ReachableCauses(s);
    forall i | 0 <= i < |s.ctx.cancels| && s.ctx.cancels[i].origin == FromTask(t, Start)
      ensures StartReported(s.tasks[t]) && s.ctx.cancels[i].cause == ErrorOrExit(s.tasks[t].start.err)
    {
      assert CameFrom(s, s.ctx.cancels[i]);
    }
    if StartReported(s.tasks[t]) {
      assert CancelOf(t, s.tasks[t], Start).value in s.ctx.cancels;
    }
  }

  /**
   * The first task wins: when no setup failed and neither the caller nor a request ended the run, it returns the error
   * of the start step that reported first, or nothing if that one ended without an error or with `ErrExit`.
   */
  lemma FirstTaskWins(s: State)
    requires Reachable(s) && s.pc == Done(false)
    requires s.failed == None && s.ctx.caller == None && s.reg.requests == 0
    ensures s.ctx.cancels != [] && s.ctx.cancels[0].origin.FromTask? && s.ctx.cancels[0].origin.step == Start
    ensures var t := s.ctx.cancels[0].origin.task;
      && t < |s.tasks| && StartReported(s.tasks[t])
      && s.cause == Some(ErrorOrExit(s.tasks[t].start.err))
      && s.out.Some? && s.out.value.cause == if Is(s.cause.value, ErrExit) then None else s.tasks[t].start.err
  {
    ExitCauseIsFirst(s);
    var c := s.ctx.cancels[0];
    assert CameFrom(s, c) by {
      hide Reachable, Inv, CausesOK, ReasonOK, CountOK, OrdinaryOK, OutOK, CameFrom;
      ReachableCauses(s);
    }
    if c.origin.step == Setup {
      NoSetupReported(s, c.origin.task);
      assert false;
    }
  }

  lemma NoSetupReported(s: State, t: nat)
    requires Reachable(s) && s.pc == Done(false) && s.failed == None && t < |s.tasks|
    ensures ReportOf(s.tasks[t].setup) == None
  {
    hide Reachable, CausesOK, CancelsOK, ReasonOK, CountOK, OrdinaryOK, OutOK, TasksOK, Total;
    ReachableCauses(s);
    StageFails(s);
    if ReportOf(s.tasks[t].setup).Some? { PastReported(s, t); }
  }

  lemma PastReported(s: State, t: nat)
    requires Inv(s) && t < |s.tasks| && s.pc == Done(false) && ReportOf(s.tasks[t].setup).Some?
    ensures s.tasks[t].setup.Finished? && s.tasks[t].setup.err.Some?
  {
    TaskHolds(s, t);
    PastView(s, t);
    hide TaskOK, ViewOf, Inv;
    PastSetup(s.tasks[t], ViewOf(s, t), Escaped(s), s.cfg.errorHandler);
  }

  predicate PublishedWhenDone(s: State) { s.ctx.published }

  lemma DonePublished(s: State)
    requires Inv(s) && s.pc == Done(false)
    ensures s.ctx.published
  {
    hide TasksOK;
  }

  lemma StepCancels(s: State, a: Action)
    requires Inv(s) && ValidConfig(s.cfg) && Enabled(s, a)
    ensures s.ctx.cancels <= Apply(s, a).ctx.cancels
  {
    hide Inv, Apply, Enabled;
    if a.CheckNext? { CheckedShape(s); }
    else if Starts(a) { StartsShape(s, a); }
    else if IsManager(a) { ManagerShape(s, a); }
    else { BystanderShape(s, a); }
  }

  lemma {:induction false} FirstCancelStaysFrom(s: State, acts: seq<Action>, s': State)
    requires RunOK(s) && Path(s, acts, s')
    ensures s.ctx.cancels <= s'.ctx.cancels
    decreases |acts|
  {
    hide RunOK, Apply, Enabled;
    if acts != [] {
      RunParts(s);
      StepRun(s, acts[0]);
      StepCancels(s, acts[0]);
      FirstCancelStaysFrom(Apply(s, acts[0]), acts[1..], s');
    }
  }

  /** Later cancels come after the first one, which stays first. */
  lemma FirstCancelStays(s: State, acts: seq<Action>, s': State)
    requires Reachable(s) && Path(s, acts, s')
    ensures s.ctx.cancels <= s'.ctx.cancels
  {
    hide Reachable, RunOK;
    ReachableRun(s);
    FirstCancelStaysFrom(s, acts, s');
  }

  /** From the moment the cause is read it is never missing, and it is one of the three it may be. */
  lemma CauseIsRead(s: State)
    requires Reachable(s) && Decided(s.pc)
    ensures s.cause.Some?
    ensures s.failed.Some? ==> s.cause == s.failed
    ensures s.failed.Some? || s.cause == s.ctx.caller || s.cause == s.ctx.startup
  {
    hide Reachable, Inv, CancelsOK, ReasonOK, CountOK, OrdinaryOK, OutOK;
    ReachableCauses(s);
  }

  /** No internal error reaches the caller: what is returned is ordinary, or wraps only what tasks returned. */
  lemma NoFatalError(s: State)
    requires Reachable(s)
    ensures AllOrdinary(s.errs) && AllOrdinary(s.setupErrs) && OrdinaryOpt(s.cause) && OrdinaryOpt(s.failed)
  {
    hide Reachable, Inv, CausesOK, CancelsOK, ReasonOK, CountOK, OutOK, TaskOrdinary, OrdinaryOpt, AllOrdinary;
    ReachableCauses(s);
  }

  /** The cause is read once: nothing that happens after the select changes it. */
  lemma CauseKept(s: State, a: Action)
    requires Inv(s) && ValidConfig(s.cfg) && Enabled(s, a) && Decided(s.pc)
    ensures Decided(Apply(s, a).pc) && Apply(s, a).cause == s.cause
  {
    hide Inv, Apply, Enabled;
    if a.CheckNext? { CheckedShape(s); }
    else if Starts(a) { StartsShape(s, a); }
    else if IsManager(a) { ManagerShape(s, a); }
    else { BystanderShape(s, a); }
  }

  lemma {:induction false} CauseStaysFrom(s: State, acts: seq<Action>, s': State)
    requires RunOK(s) && Decided(s.pc) && Path(s, acts, s')
    ensures s'.cause == s.cause
    decreases |acts|
  {
    hide RunOK, Apply, Enabled, Decided;
    if acts != [] {
      RunParts(s);
      StepRun(s, acts[0]);
      CauseKept(s, acts[0]);
      CauseStaysFrom(Apply(s, acts[0]), acts[1..], s');
    }
  }

  /**
   * Which cause it is, for good: when the select takes the startup context, no setup failed, and the caller did not
   * cancel before, the run ends with the first error given to the startup cancel, even if the caller cancels later.
   */
  lemma CauseIsFixed(s: State, acts: seq<Action>, s': State)
    requires Reachable(s) && Enabled(s, Select(false)) && s.failed == None && s.ctx.caller == None
    requires ValidConfig(s.cfg) && Path(Apply(s, Select(false)), acts, s')
    ensures s.ctx.cancels != [] && s'.cause == Some(s.ctx.cancels[0].cause)
  {
    hide Reachable, RunOK, Inv, CancelsOK, ReasonOK, CountOK, OrdinaryOK, OutOK, Path;
    ReachableCauses(s);
    ReachableRun(s);
    StepRun(s, Select(false));
    SelectIsApplied(s);
    CauseStaysFrom(Apply(s, Select(false)), acts, s');
  }

  /** A caller that cancels while the run waits may be heard, and then its cause is the one, unless a setup failed. */
  lemma CallerIsHeard(s: State, acts: seq<Action>, s': State)
    requires Reachable(s) && ValidConfig(s.cfg) && s.pc.Selecting? && s.ctx.caller.Some?
    ensures Enabled(s, Select(true))
    ensures Path(Apply(s, Select(true)), acts, s') ==>
              s'.cause == if s.failed.Some? then s.failed else s.ctx.caller
  {
    assert Enabled(s, Select(true));
    if Path(Apply(s, Select(true)), acts, s') {
      CallerIsRead(s);
      hide Reachable, RunOK, Path, Apply, Enabled;
      ReachableRun(s);
      StepRun(s, Select(true));
      CauseStaysFrom(Apply(s, Select(true)), acts, s');
    }
  }

  lemma CallerIsRead(s: State)
    requires ValidConfig(s.cfg) && s.pc.Selecting? && s.ctx.caller.Some?
    ensures var s' := Apply(s, Select(true));
      Decided(s'.pc) && s'.cause == if s.failed.Some? then s.failed else s.ctx.caller
  {
  }

  lemma SelectIsApplied(s: State)
    requires ValidConfig(s.cfg) && Enabled(s, Select(false)) && s.failed == None
    ensures Apply(s, Select(false)).cause == s.ctx.startup && Decided(Apply(s, Select(false)).pc)
  {
  }

  lemma {:induction false} ResultStaysFrom(s: State, acts: seq<Action>, s': State)
    requires RunOK(s) && s.pc.Done? && Path(s, acts, s')
    ensures s'.pc == s.pc && s'.out == s.out && s'.cause == s.cause
    decreases |acts|
  {
    hide RunOK, Apply, Enabled;
    if acts != [] {
      StepRun(s, acts[0]);
      RunParts(s);
      ResultKept(s, acts[0]);
      ResultStaysFrom(Apply(s, acts[0]), acts[1..], s');
    }
  }

  /** Nothing that happens after the run returned changes what it returned. */
  lemma ResultStays(s: State, acts: seq<Action>, s': State)
    requires Reachable(s) && s.pc.Done? && Path(s, acts, s')
    ensures s'.pc == s.pc && s'.out == s.out && s'.cause == s.cause
  {
    hide Reachable, RunOK;
    ReachableRun(s);
    ResultStaysFrom(s, acts, s');
  }

  // ---------- errors ----------

  /** The error the start fails with is made of exactly the failures of the setups of the failing stage. */
  lemma SetupErrorsConserved(s: State)
    requires Reachable(s) && Past(s.pc)
    ensures s.ran > 0 && s.failed == BuildErrors(s.setupErrs)
    ensures multiset(s.setupErrs) == Total(s.tasks, SetupFailure(s.ran - 1))
  {
    hide Reachable, CausesOK, CancelsOK, ReasonOK, CountOK, OrdinaryOK, OutOK, TasksOK, Total, SetupFailure;
    ReachableCauses(s);
  }

  /**
   * Without giving up waits, the stop error is made of exactly the errors of all stop and teardown steps, lists
   * flattened one level, and those the manager added; and all of these steps are over.
   */
  lemma StopErrorsConserved(s: State)
    requires Reachable(s) && s.pc == Done(false) && !s.cfg.enforce
    ensures s.out.Some? && s.out.value.stopErr == BuildErrors(s.errs)
    ensures multiset(s.errs) == Total(s.tasks, ShutdownFailure()) + multiset(s.ownErrs)
    ensures forall t, step :: 0 <= t < |s.tasks| ==> !Live(PhaseOf(s.tasks[t], step))
  {
    hide Reachable, Inv, ClockOK, Total, ShutdownFailure, BuildErrors;
    ReachableShutdown(s);
    assert s.errs[..s.built] == s.errs;
    forall t, step | 0 <= t < |s.tasks|
      ensures !Live(PhaseOf(s.tasks[t], step))
    {
      DoneQuiet(s, t, step);
    }
  }

  lemma DoneQuiet(s: State, t: nat, step: Step)
    requires Inv(s) && s.pc == Done(false) && !s.cfg.enforce && t < |s.tasks|
    ensures !Live(PhaseOf(s.tasks[t], step))
  {
    hide TaskOK, LockOK, FailuresOK;
    TaskHolds(s, t);
    QuietTask(s.tasks[t], step, ViewOf(s, t), s.cfg.errorHandler);
  }

  lemma QuietTask(task: Task, step: Step, v: View, eh: ErrorHandler)
    requires TaskOK(task, v, false, eh) && v.down == 2 && v.setup != 1
    ensures !Live(PhaseOf(task, step))
  {
  }

  /** When waits may be given up, every error returned was reported, and at least as often. */
  lemma StopErrorsReported(s: State)
    requires Reachable(s) && s.pc == Done(false)
    ensures s.out.Some? && s.built <= |s.errs| && s.out.value.stopErr == BuildErrors(s.errs[..s.built])
    ensures multiset(s.errs[..s.built]) <= Total(s.tasks, ShutdownFailure()) + multiset(s.ownErrs)
  {
    hide Reachable, Inv, ClockOK, Total, ShutdownFailure, BuildErrors;
    ReachableShutdown(s);
    assert s.errs == s.errs[..s.built] + s.errs[s.built..];
  }

  // ---------- the clock ----------

  /**
   * With a base context that never ends, the manager adds a timeout error when the teardown begins exactly if it has a
   * timeout of its own and that of the shutdown has expired; and at the end exactly if the timeout of the teardown has
   * expired, its own or the one it shares with the shutdown.
   */
  lemma TimeoutErrors(s: State)
    requires Reachable(s) && s.pc == Done(false) && s.ctx.base == None
    ensures s.ownErrs == TurnTimeout(s.cfg, s.clock) + CloseTimeout(s.cfg, s.clock)
  {
    hide Reachable, Inv, ErrorsOK;
    ReachableShutdown(s);
  }

  /** The manager can make a move. */
  ghost predicate ManagerReady(s: State) { exists a :: IsManager(a) && Enabled(s, a) }

  /** A path on which time passes only while the manager waits. */
  ghost predicate Prompt(s: State, acts: seq<Action>)
    decreases |acts|
  {
    acts != [] ==>
      && ValidConfig(s.cfg) && Enabled(s, acts[0])
      && (acts[0].Tick? ==> !ManagerReady(s))
      && Prompt(Apply(s, acts[0]), acts[1..])
  }

  predicate StopPhase(pc: PC) { ShutOpen(pc) && !DownOpen(pc) }

  /** The stop phase is not older than the timeout, and the teardown did not begin later than that. */
  predicate InTime(s: State) {
    s.cfg.enforce && s.cfg.shutdownTimeout > 0 ==>
      && (StopPhase(s.pc) ==> s.clock.now <= s.clock.shutAt + s.cfg.shutdownTimeout)
      && (DownOpen(s.pc) || s.pc == Done(false) ==> s.clock.turnAt <= s.clock.shutAt + s.cfg.shutdownTimeout)
  }

  lemma ReadyBy(s: State, a: Action)
    requires IsManager(a) && Enabled(s, a)
    ensures ManagerReady(s)
  {
  }

  /** When the shutdown context has ended, an enforcing manager does not wait in the stop phase. */
  lemma EscapedIsReady(s: State)
    requires Escaped(s) && StopPhase(s.pc) && (s.pc.Scan? ==> s.pc.next <= |s.tasks|)
    ensures ManagerReady(s)
  {
    hide ManagerReady;
    match s.pc {
      case Scan(_, _, i) => if i < |s.tasks| { ReadyBy(s, CheckNext); } else { ReadyBy(s, EndScan); }
      case Await(_, _) => ReadyBy(s, Proceed);
      case Draining => ReadyBy(s, Drained);
      case Turning => ReadyBy(s, Turn);
    }
  }

  lemma TickInTime(s: State)
    requires Inv(s) && ClockOK(s) && InTime(s) && !ManagerReady(s)
    ensures InTime(TickClock(s))
  {
    if s.cfg.enforce && s.cfg.shutdownTimeout > 0 && StopPhase(s.pc) && ShutDue(s) {
      EscapedIsReady(s);
    }
    hide Inv;
    TickShape(s);
    hide TickClock;
  }

  lemma OtherInTime(s: State, a: Action)
    requires Inv(s) && ClockOK(s) && ValidConfig(s.cfg) && InTime(s) && Enabled(s, a) && !a.Tick?
    ensures InTime(Apply(s, a))
  {
    assert PcOK(s) by { hide TasksOK; }
    hide Inv, PcOK, ValidConfig;
    if IsGoroutine(a) || a.TaskReturn? { MoveInTime(s, a); }
    else if a.CheckNext? { CheckInTime(s); }
    else if a.Select? || a.Turn? { TurningInTime(s, a); }
    else if a.Proceed? { ProceedInTime(s); }
    else if a.Notify? { NotifyInTime(s); }
    else if Starts(a) { BeforeInTime(s, a); }
    else if IsManager(a) { EndInTime(s, a); }
    else { CallerInTime(s, a); }
  }

  lemma MoveInTime(s: State, a: Action)
    requires ValidConfig(s.cfg) && InTime(s) && Enabled(s, a) && (IsGoroutine(a) || a.TaskReturn?)
    ensures InTime(Apply(s, a))
  {
    hide PrepareTask, BeginTask, ReturnTask, SettleTask, WithPhase, PhaseOf, Plausible, Flat;
  }

  lemma CheckInTime(s: State)
    requires Inv(s) && InTime(s) && s.pc.Scan? && s.pc.next < |s.tasks|
    ensures InTime(DoCheckNext(s))
  {
    hide Inv, DoCheckNext;
    CheckShape(s);
  }

  /** The shutdown begins now, or the teardown does. */
  lemma TurningInTime(s: State, a: Action)
    requires ClockOK(s) && ValidConfig(s.cfg) && InTime(s) && Enabled(s, a) && (a.Select? || a.Turn?)
    ensures InTime(Apply(s, a))
  {
    hide Flat, TimeoutError, ClockOK;
  }

  lemma BeforeInTime(s: State, a: Action)
    requires PcOK(s) && ValidConfig(s.cfg) && InTime(s) && Enabled(s, a)
    requires Starts(a)
    ensures InTime(Apply(s, a))
  {
  }

  lemma ProceedInTime(s: State)
    requires PcOK(s) && ValidConfig(s.cfg) && InTime(s) && Enabled(s, Proceed)
    ensures InTime(Apply(s, Proceed))
  {
    hide BuildErrors, MayProceed;
  }

  lemma NotifyInTime(s: State)
    requires PcOK(s) && InTime(s) && ValidConfig(s.cfg) && Enabled(s, Notify)
    ensures InTime(Apply(s, Notify))
  {
    hide SkipTask;
  }

  lemma EndInTime(s: State, a: Action)
    requires InTime(s) && ValidConfig(s.cfg) && Enabled(s, a) && (a.EndScan? || a.Drained? || a.Close? || a.Build?)
    ensures InTime(Apply(s, a))
  {
    hide BuildErrors, Flat, TimeoutError, ExitCause, AllStartsOver;
  }

  lemma CallerInTime(s: State, a: Action)
    requires ValidConfig(s.cfg) && InTime(s) && Enabled(s, a) && !Own(a) && !a.Tick?
    ensures InTime(Apply(s, a))
  {
    hide Serve, EndShut, EndDown;
    if a.CancelBase? { EndShape(s.(ctx := s.ctx.(base := Some(a.cause))), a.cause); }
    if a.Release? { ServeShape(s.(reg := s.reg.(lock := None)), s.reg.lock.value); }
  }

  lemma {:induction false} PromptInTime(s: State, acts: seq<Action>, s': State)
    requires RunOK(s) && InTime(s) && Prompt(s, acts) && Path(s, acts, s')
    ensures InTime(s')
    decreases |acts|
  {
    hide RunOK, InTime, Apply, Enabled, ManagerReady;
    if acts != [] {
      var a := acts[0];
      RunParts(s);
      StepRun(s, a);
      if a.Tick? { TickIsApplied(s); TickInTime(s); } else { OtherInTime(s, a); }
      PromptInTime(Apply(s, a), acts[1..], s');
    }
  }

  lemma TickIsApplied(s: State)
    requires ValidConfig(s.cfg) && Enabled(s, Tick)
    ensures Apply(s, Tick) == TickClock(s)
  {
  }

  /**
   * Bounded shutdown: when the manager enforces a timeout and does not dawdle, the teardown begins at most that long
   * after the shutdown began, for any number of stages and whatever the tasks do.
   */
  lemma ShutdownIsBounded(cfg: Config, acts: seq<Action>, s: State)
    requires ValidConfig(cfg) && cfg.enforce && cfg.shutdownTimeout > 0
    requires Path(Init(cfg), acts, s) && Prompt(Init(cfg), acts) && s.cfg == cfg
    ensures StopPhase(s.pc) ==> s.clock.now <= s.clock.shutAt + cfg.shutdownTimeout
    ensures DownOpen(s.pc) || s.pc == Done(false) ==> s.clock.turnAt <= s.clock.shutAt + cfg.shutdownTimeout
  {
    hide Path, Prompt, RunOK;
    InitRun(cfg);
    PromptInTime(Init(cfg), acts, s);
  }
}
