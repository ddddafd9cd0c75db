/** What callers find in the errors of a run with errors.Is, and which errors the manager adds itself. */
module ErrorGuarantees {
  import opened Errors
  import opened Steps
  import opened Lifecycle
  import opened TaskInvariant
  import opened Totals
  import opened Invariant
  import opened History
  import opened Order
  import opened Cancels
  import opened Causes
  import opened Shutdown
  import opened Outcomes
  import opened Liveness
  import opened Stops
  import opened Skips
  import opened AllRuns
  import opened StepGuarantees
  import opened RunGuarantees

  // ---------- a failed start ----------

  /** The setup of the task ended with an error in which the target is found. */
  predicate SetupFailedAs(task: Task, target: Err) {
    task.setup.Finished? && task.setup.err.Some? && Is(task.setup.err.value, target)
  }

  /**
   * What callers find in the error of a failed start: `ErrInitialization`, and what they find in the error of a setup
   * of the stage entered last, and nothing else.
   */
  lemma FailureIs(s: State, target: Err)
    requires Reachable(s) && Past(s.pc) && s.failed.Some? && Sentinel(target)
    ensures Is(s.failed.value, target) <==>
              target == ErrInitialization || exists t :: 0 <= t < |s.tasks| && SetupFailedAs(s.tasks[t], target)
  {
    hide Past, SetupFailedAs, FailedWith;
    FailuresAre(s);
    hide Reachable, BuildErrors;
    BuiltIs(s.setupErrs, target);
    FoundInFailures(s, target);
  }

  /** The errors of a failed start are those of its setups, each marked as one of the initialization. */
  lemma FailuresAre(s: State)
    requires Reachable(s) && Past(s.pc)
    ensures s.failed == BuildErrors(s.setupErrs)
    ensures forall e :: e in s.setupErrs <==> exists t :: 0 <= t < |s.tasks| && FailedWith(s.tasks[t], e)
  {
    SetupErrorsConserved(s);
    var failures := SetupFailure(s.ran - 1);
    forall t, e | 0 <= t < |s.tasks|
      ensures e in failures(s.tasks[t]) <==> FailedWith(s.tasks[t], e)
    {
      PastFailure(s, t);
    }
    hide Reachable, Past, SetupFailure, Total, BuildErrors, FailedWith;
    ErrorsFrom(s.setupErrs, s.tasks, failures);
    forall e
      ensures e in s.setupErrs <==> exists t :: 0 <= t < |s.tasks| && FailedWith(s.tasks[t], e)
    {
      if t :| 0 <= t < |s.tasks| && e in failures(s.tasks[t]) { assert FailedWith(s.tasks[t], e); }
      if t :| 0 <= t < |s.tasks| && FailedWith(s.tasks[t], e) { assert e in failures(s.tasks[t]); }
    }
  }

  predicate FailedWith(task: Task, e: Err) {
    task.setup.Finished? && task.setup.err.Some? && e == InitializationError(task.setup.err.value)
  }

  lemma FoundInFailures(s: State, target: Err)
    requires Sentinel(target) && s.setupErrs != []
    requires forall e :: e in s.setupErrs <==> exists t :: 0 <= t < |s.tasks| && FailedWith(s.tasks[t], e)
    ensures (exists e :: e in s.setupErrs && Is(e, target)) <==>
              target == ErrInitialization || exists t :: 0 <= t < |s.tasks| && SetupFailedAs(s.tasks[t], target)
  {
    hide Is, FailedWith, SetupFailedAs;
    var first := s.setupErrs[0];
    assert first in s.setupErrs;
    var t0 :| 0 <= t0 < |s.tasks| && FailedWith(s.tasks[t0], first);
    FailedIs(s.tasks[t0], first, target);
    if e :| e in s.setupErrs && Is(e, target) {
      var t :| 0 <= t < |s.tasks| && FailedWith(s.tasks[t], e);
      FailedIs(s.tasks[t], e, target);
    }
    if t :| 0 <= t < |s.tasks| && SetupFailedAs(s.tasks[t], target) {
      var e := FailureOf(s.tasks[t], target);
      assert e in s.setupErrs;
    }
  }

  lemma FailedIs(task: Task, e: Err, target: Err)
    requires FailedWith(task, e) && Sentinel(target)
    ensures Is(e, target) <==> target == ErrInitialization || SetupFailedAs(task, target)
  {
    hide Is;
    InitializationIs(task.setup.err.value, target);
  }

  lemma FailureOf(task: Task, target: Err) returns (e: Err)
    requires SetupFailedAs(task, target) && Sentinel(target)
    ensures FailedWith(task, e) && Is(e, target)
  {
    hide Is;
    e := InitializationError(task.setup.err.value);
    InitializationIs(task.setup.err.value, target);
  }

  lemma InitializationIs(e: Err, target: Err)
    requires Sentinel(target)
    ensures Is(InitializationError(e), target) <==> target == ErrInitialization || Is(e, target)
  {
    hide Is;
    PairIs(ErrInitialization, e);
    SentinelIs(ErrInitialization, target);
  }

  lemma PastFailure(s: State, t: nat)
    requires Reachable(s) && Past(s.pc) && t < |s.tasks|
    ensures ReportOf(s.tasks[t].setup).Some? <==> s.tasks[t].setup.Finished? && s.tasks[t].setup.err.Some?
    ensures ReportOf(s.tasks[t].setup).Some? ==> StageOf(s, t) == s.ran - 1
  {
    hide Reachable, Linked, NoRepeat, Ordered, StopsOK, SkipsOK, TaskOK;
    ReachableHistory(s);
    TaskHolds(s, t);
    PastView(s, t);
    FailingView(s, t);
    hide Inv, ViewOf;
    PastSetup(s.tasks[t], ViewOf(s, t), Escaped(s), s.cfg.errorHandler);
  }

  lemma FailingView(s: State, t: nat)
    requires Inv(s) && t < |s.tasks| && Past(s.pc)
    ensures ViewOf(s, t).setup == 2 ==> StageOf(s, t) == s.ran - 1
  {
    hide TasksOK, FailuresOK, LockOK;
  }

  /**
   * What a run with a failed start returns: that error, which says so; but none exactly when the error of one of its
   * setups wraps `ErrExit`, alone or in a list.
   */
  lemma FailedRunReturns(s: State)
    requires Reachable(s) && s.pc == Done(false) && s.failed.Some?
    ensures s.out.Some? && (s.out.value.cause == None || s.out.value.cause == s.failed)
    ensures s.out.value.cause == None <==> exists t :: 0 <= t < |s.tasks| && SetupFailedAs(s.tasks[t], ErrExit)
    ensures s.out.value.cause.Some? ==> Is(s.out.value.cause.value, ErrInitialization)
    ensures forall t, target :: 0 <= t < |s.tasks| && Sentinel(target) && SetupFailedAs(s.tasks[t], target) ==>
              Is(s.failed.value, target)
  {
    hide Reachable, SetupFailedAs;
    ExitCauseIsFirst(s);
    FailureIs(s, ErrExit);
    FailureIs(s, ErrInitialization);
    forall t, target | 0 <= t < |s.tasks| && Sentinel(target) && SetupFailedAs(s.tasks[t], target)
      ensures Is(s.failed.value, target)
    {
      FailureIs(s, target);
    }
  }

  // ---------- when it happened ----------

  predicate ShutMade(pc: PC) { ShutOpen(pc) || pc == Done(false) }
  predicate DownMade(pc: PC) { DownOpen(pc) || pc == Done(false) }
  predicate Closed(pc: PC) { pc == Building || pc == Done(false) }

  /** Time does not go back, and when the shutdown, the teardown and the end began is noted once. */
  predicate SameMarks(s: State, s': State) {
    && s.clock.now <= s'.clock.now
    && (ShutMade(s.pc) ==> ShutMade(s'.pc) && s'.clock.shutAt == s.clock.shutAt)
    && (DownMade(s.pc) ==> DownMade(s'.pc) && s'.clock.turnAt == s.clock.turnAt)
    && (Closed(s.pc) ==> Closed(s'.pc) && s'.clock.closeAt == s.clock.closeAt)
  }

  lemma BystanderMarks(s: State, a: Action)
    requires ValidConfig(s.cfg) && Enabled(s, a) && !IsManager(a)
    ensures SameMarks(s, Apply(s, a))
  {
    if a.Report? { hide DoReport; ReportKeepsRest(s, a.task, a.step); }
    else if IsGoroutine(a) || a.TaskReturn? { hide Apply, Enabled; MoveShape(s, a); }
    else {
      hide EndShut, EndDown, Serve, TickClock;
      if a.Tick? { TickShape(s); }
      if a.CancelBase? { EndShape(s.(ctx := s.ctx.(base := Some(a.cause))), a.cause); }
      if a.Release? { ServeShape(s.(reg := s.reg.(lock := None)), s.reg.lock.value); }
    }
  }

  lemma WalkMarks(s: State, a: Action)
    requires Inv(s) && ValidConfig(s.cfg) && Enabled(s, a)
    requires a.CheckNext? || a.EndScan? || a.Proceed? || a.Notify? || a.Drained?
    ensures SameMarks(s, Apply(s, a))
  {
    hide Inv, DoCheckNext, BuildErrors, MayProceed, SkipTask, AllStartsOver;
    if a.CheckNext? { CheckShape(s); }
  }

  lemma OtherMarks(s: State, a: Action)
    requires ValidConfig(s.cfg) && Enabled(s, a)
    requires Starts(a) || a.Select? || a.Turn? || a.Close? || a.Build?
    ensures SameMarks(s, Apply(s, a))
  {
    hide Flat, BuildErrors, ExitCause, TimeoutError, HasStartTask;
  }

  lemma {:induction false} MarksFrom(s: State, acts: seq<Action>, s': State)
    requires RunOK(s) && Path(s, acts, s')
    ensures SameMarks(s, s')
    decreases |acts|
  {
    if acts != [] {
      var a := acts[0];
      RunParts(s);
      hide RunOK, Inv, Apply, Enabled, SameMarks;
      StepRun(s, a);
      if !IsManager(a) { BystanderMarks(s, a); }
      else if Starts(a) || a.Select? || a.Turn? || a.Close? || a.Build? { OtherMarks(s, a); }
      else { WalkMarks(s, a); }
      MarksFrom(Apply(s, a), acts[1..], s');
      MarksMeet(s, Apply(s, a), s');
    } else {
      MarksMeet(s, s, s);
    }
  }

  lemma MarksMeet(s: State, m: State, s': State)
    ensures SameMarks(s, s)
    ensures SameMarks(s, m) && SameMarks(m, s') ==> SameMarks(s, s')
  {
  }

  /**
   * The timeouts are counted from when the shutdown began, at the select, and from when the teardown began; and it is
   * at its end that the second is looked at.
   */
  lemma TimesAreKept(s: State, a: Action, acts: seq<Action>, s': State)
    requires Reachable(s) && ValidConfig(s.cfg) && Enabled(s, a) && (a.Select? || a.Turn? || a.Close?)
    requires Path(Apply(s, a), acts, s')
    ensures a.Select? ==> s'.clock.shutAt == s.clock.now
    ensures a.Turn? ==> s'.clock.turnAt == s.clock.now
    ensures a.Close? ==> s'.clock.closeAt == s.clock.now
    ensures s'.clock.now >= s.clock.now
  {
    hide Reachable, RunOK, Path;
    ReachableRun(s);
    StepRun(s, a);
    MarksFrom(Apply(s, a), acts, s');
    hide Flat, TimeoutError;
  }

  // ---------- a base context that ends ----------

  /** The manager adds that a timeout expired, or else the cause of the base context if that is no deadline. */
  predicate AddsWhy(s: State, s': State, due: bool)
    requires s.ctx.base.Some?
  {
    || (s'.ownErrs == s.ownErrs + [ErrShutdownTimeout] && (due || Is(s.ctx.base.value, DeadlineExceeded)))
    || (s'.ownErrs == s.ownErrs + Flat(s.ctx.base) && !Is(s.ctx.base.value, DeadlineExceeded))
  }

  /**
   * When the base context that the caller gave has ended, the manager says so twice at most: when the teardown begins,
   * if that has a timeout of its own, and at the end. Each time it adds that cause, or that a timeout expired.
   */
  lemma EndedBaseIsTold(s: State)
    requires Reachable(s) && ValidConfig(s.cfg) && s.ctx.base.Some?
    ensures s.pc.Turning? && s.cfg.teardownTimeout > 0 ==> AddsWhy(s, Apply(s, Turn), ShutDue(s))
    ensures s.pc.Turning? && s.cfg.teardownTimeout == 0 ==> Apply(s, Turn).ownErrs == s.ownErrs
    ensures s.pc.Closing? ==>
              AddsWhy(s, Apply(s, Close), if s.cfg.teardownTimeout > 0 then DownDue(s) else ShutDue(s))
  {
    assert ClockOK(s) by {
      hide Reachable, Inv, ErrorsOK, ClockOK;
      ReachableShutdown(s);
    }
    hide *;
    if s.pc.Turning? { TurnTells(s); }
    if s.pc.Closing? { CloseTells(s); }
  }

  lemma TurnTells(s: State)
    requires ClockOK(s) && ValidConfig(s.cfg) && s.ctx.base.Some? && s.pc.Turning?
    ensures if s.cfg.teardownTimeout > 0 then AddsWhy(s, Apply(s, Turn), ShutDue(s))
            else Apply(s, Turn).ownErrs == s.ownErrs
  {
    assert Is(DeadlineExceeded, DeadlineExceeded);
  }

  lemma CloseTells(s: State)
    requires ClockOK(s) && ValidConfig(s.cfg) && s.ctx.base.Some? && s.pc.Closing?
    ensures AddsWhy(s, Apply(s, Close), if s.cfg.teardownTimeout > 0 then DownDue(s) else ShutDue(s))
  {
    assert Is(DeadlineExceeded, DeadlineExceeded);
  }

  // ---------- the stop errors ----------

  /** The step of the task ended with an error in which the target is found; a list is searched through. */
  predicate EndedAs(p: Phase, target: Err) { p.Finished? && p.err.Some? && Is(p.err.value, target) }

  /** The target is found in the error of the stop or of the teardown step. */
  predicate EndFailedAs(task: Task, target: Err) { EndedAs(task.stop, target) || EndedAs(task.teardown, target) }

  predicate EndFailedWith(task: Task, e: Err) { e in Flat(ReportOf(task.stop)) || e in Flat(ReportOf(task.teardown)) }

  predicate OneFound(es: seq<Err>, target: Err) { exists e :: e in es && Is(e, target) }

  /**
   * What callers find in the stop error, when waits are not given up: what they find in the error of a stop or
   * teardown step, or in what the manager added, and nothing else; it is none exactly when there are no errors.
   */
  lemma StopErrorIs(s: State, target: Err)
    requires Reachable(s) && s.pc == Done(false) && !s.cfg.enforce && Sentinel(target)
    ensures s.out.Some?
    ensures s.out.value.stopErr.Some? && Is(s.out.value.stopErr.value, target) <==>
              || OneFound(s.ownErrs, target)
              || exists t :: 0 <= t < |s.tasks| && EndFailedAs(s.tasks[t], target)
  {
    hide EndedAs, OneFound;
    StopErrorsAre(s, target);
    hide Reachable, BuildErrors;
    if s.errs != [] { BuiltIs(s.errs, target); }
    assert OneFound(s.errs, target) <==> exists e :: e in s.errs && Is(e, target) by { FoundMeans(s.errs, target); }
    StopFound(s, target);
  }

  lemma FoundMeans(es: seq<Err>, target: Err)
    ensures OneFound(es, target) <==> exists e :: e in es && Is(e, target)
  {
  }

  lemma StopErrorsAre(s: State, target: Err)
    requires Reachable(s) && s.pc == Done(false) && !s.cfg.enforce && Sentinel(target)
    ensures s.out.Some? && s.out.value.stopErr == BuildErrors(s.errs)
    ensures forall e :: e in s.errs <==>
              e in s.ownErrs || exists t :: 0 <= t < |s.tasks| && EndFailedWith(s.tasks[t], e)
    ensures forall t :: 0 <= t < |s.tasks| ==>
              (EndFailedAs(s.tasks[t], target) <==> exists e :: EndFailedWith(s.tasks[t], e) && Is(e, target))
  {
    hide Total;
    StopErrorsConserved(s);
    forall t | 0 <= t < |s.tasks|
      ensures EndFailedAs(s.tasks[t], target) <==> exists e :: EndFailedWith(s.tasks[t], e) && Is(e, target)
    {
      assert !Live(PhaseOf(s.tasks[t], Stop)) && !Live(PhaseOf(s.tasks[t], Teardown));
      TaskEndFound(s.tasks[t], target);
    }
    hide Reachable, EndFailedAs, BuildErrors, Flat;
    forall e
      ensures e in s.errs <==> e in s.ownErrs || exists t :: 0 <= t < |s.tasks| && EndFailedWith(s.tasks[t], e)
    {
      assert e in s.errs <==> e in multiset(s.errs);
      TotalMember(s.tasks, ShutdownFailure(), e);
      if t :| 0 <= t < |s.tasks| && e in ShutdownFailure()(s.tasks[t]) { assert EndFailedWith(s.tasks[t], e); }
      if t :| 0 <= t < |s.tasks| && EndFailedWith(s.tasks[t], e) { assert e in ShutdownFailure()(s.tasks[t]); }
    }
  }

  lemma TaskEndFound(task: Task, target: Err)
    requires Sentinel(target) && !Live(task.stop) && !Live(task.teardown)
    ensures EndFailedAs(task, target) <==> exists e :: EndFailedWith(task, e) && Is(e, target)
  {
    FlatFound(ReportOf(task.stop), target);
    FlatFound(ReportOf(task.teardown), target);
    hide Flat, Is;
    if EndedAs(task.stop, target) {
      var e :| e in Flat(ReportOf(task.stop)) && Is(e, target);
      assert EndFailedWith(task, e);
    }
    if EndedAs(task.teardown, target) {
      var e :| e in Flat(ReportOf(task.teardown)) && Is(e, target);
      assert EndFailedWith(task, e);
    }
  }

  lemma FlatFound(e: Option<Err>, target: Err)
    requires Sentinel(target)
    ensures OneFound(Flat(e), target) <==> e.Some? && Is(e.value, target)
  {
    if e.Some? && e.value.Multi? {
      assert forall i :: 0 <= i < |e.value.errors| ==> e.value.errors[i] in Flat(e);
    } else if e.Some? {
      assert e.value in Flat(e);
    }
  }

  lemma StopFound(s: State, target: Err)
    requires forall e :: e in s.errs <==>
               e in s.ownErrs || exists t :: 0 <= t < |s.tasks| && EndFailedWith(s.tasks[t], e)
    requires forall t :: 0 <= t < |s.tasks| ==>
               (EndFailedAs(s.tasks[t], target) <==> exists e :: EndFailedWith(s.tasks[t], e) && Is(e, target))
    ensures OneFound(s.errs, target) <==>
              || OneFound(s.ownErrs, target)
              || exists t :: 0 <= t < |s.tasks| && EndFailedAs(s.tasks[t], target)
  {
    hide EndFailedAs, EndFailedWith, Is;
    if OneFound(s.errs, target) {
      var e :| e in s.errs && Is(e, target);
      if e in s.ownErrs {
        assert OneFound(s.ownErrs, target);
      } else {
        var t :| 0 <= t < |s.tasks| && EndFailedWith(s.tasks[t], e);
        assert EndFailedAs(s.tasks[t], target);
      }
    }
    if t :| 0 <= t < |s.tasks| && EndFailedAs(s.tasks[t], target) {
      var e :| EndFailedWith(s.tasks[t], e) && Is(e, target);
      assert e in s.errs;
    }
  }
}
