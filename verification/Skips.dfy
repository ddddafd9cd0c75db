/** What a task that never runs is told, and what its future is resolved with. */
module Skips {
  import opened Errors
  import opened Steps
  import opened Lifecycle
  import opened TaskInvariant
  import opened Invariant
  import opened History
  import opened Order

  /** Why the tasks that never run are skipped: the run returned early, or a setup failed. */
  function WhySkipped(s: State): Option<Err> { if EarlyExit(s.pc) then s.cause else s.failed }

  predicate Skipped(s: State, t: nat)
    requires t < |s.tasks|
  {
    s.tasks[t].spec.skippable && ViewOf(s, t).skipped
  }

  predicate SkipsOK(s: State) {
    && (forall t :: 0 <= t < |s.tasks| ==> s.tasks[t].told == if Skipped(s, t) then [WhySkipped(s)] else [])
    && (forall t :: 0 <= t < |s.tasks| && s.tasks[t].spec.kind == Future && ViewOf(s, t).skipped ==>
          s.tasks[t].cell == [Failure(SkippedError(WhySkipped(s)))])
  }

  /** A task that was skipped is never set up, so nothing else resolves its future. */
  lemma SkippedIdle(s: State, t: nat)
    requires Inv(s) && t < |s.tasks| && ViewOf(s, t).skipped
    ensures s.tasks[t].setup == Idle && (EarlyExit(s.pc) || Past(s.pc))
  {
    hide TaskOK, FailuresOK, LockOK;
    TaskHolds(s, t);
    SetupView(s.tasks[t], ViewOf(s, t), Escaped(s), s.cfg.errorHandler);
    PhaseViews(s.tasks[t], ViewOf(s, t), Escaped(s), s.cfg.errorHandler);
  }

  lemma MoveKeepsCell(s: State, a: Action)
    requires ValidConfig(s.cfg) && Enabled(s, a) && (IsGoroutine(a) || a.TaskReturn?)
    requires a.TaskReturn? ==> a.step != Setup
    ensures Apply(s, a).tasks[a.task].cell == s.tasks[a.task].cell
  {
    hide Apply, Enabled, Plausible;
    MoveParts(s, a);
  }

  lemma CheckKeepsCell(task: Task, step: Step)
    ensures CheckTask(task, step).cell == task.cell
  {
  }

  lemma ManagerKeepsCell(s: State, a: Action, t: nat)
    requires Inv(s) && ValidConfig(s.cfg) && Enabled(s, a) && IsManager(a) && t < |s.tasks|
    requires NewEvent(s, a) != Some(SkipE(t)) && s.tasks[t].spec.skippable
    ensures |Apply(s, a).tasks| == |s.tasks| && Apply(s, a).tasks[t].cell == s.tasks[t].cell
  {
    hide Inv, InvalidOrder, CheckTask, SkipTask, DoCheckNext;
    if a.CheckNext? {
      CheckShape(s);
      CheckKeepsCell(s.tasks[s.pc.next], s.pc.step);
    } else if !a.Notify? {
      hide Apply, Enabled;
      ManagerKeepsTasks(s, a);
    }
  }

  lemma StepKeepsCell(s: State, a: Action, t: nat)
    requires Inv(s) && ValidConfig(s.cfg) && Enabled(s, a) && t < |s.tasks| && s.tasks[t].spec.skippable
    requires ViewOf(s, t).skipped && NewEvent(s, a) != Some(SkipE(t))
    ensures t < |Apply(s, a).tasks| && Apply(s, a).tasks[t].cell == s.tasks[t].cell
  {
    if IsGoroutine(a) || a.TaskReturn? {
      SkippedIdle(s, t);
      hide Inv, Apply, ViewOf;
      MoveKeepsSpec(s, a);
      if a.task == t { MoveKeepsCell(s, a); }
    } else if IsManager(a) {
      hide Inv, Apply, ViewOf;
      ManagerKeepsCell(s, a, t);
    } else {
      hide Inv, Apply, Enabled, ViewOf, NewEvent;
      CallerShape(s, a);
    }
  }

  /** Once a task was skipped the reason does not change. */
  lemma WhyKept(s: State, a: Action)
    requires Inv(s) && ValidConfig(s.cfg) && Enabled(s, a) && (EarlyExit(s.pc) || Past(s.pc))
    ensures WhySkipped(Apply(s, a)) == WhySkipped(s)
  {
    hide Inv, Apply, Enabled;
    if a.CheckNext? { CheckedShape(s); }
    else if Starts(a) { StartsShape(s, a); }
    else if IsManager(a) { ManagerShape(s, a); }
    else { BystanderShape(s, a); }
  }

  lemma FutureSkippable(task: Task, v: View, esc: bool, eh: ErrorHandler)
    requires TaskOK(task, v, esc, eh) && task.spec.kind == Future
    ensures task.spec.skippable && (v.setup == 0 && !v.skipped ==> task.cell == [])
  {
  }

  lemma NewlySkipped(s: State, t: nat)
    requires Inv(s) && s.pc.Skipping? && s.pc.stage < s.cfg.stages && InStage(s, s.pc.stage, t) && s.pc.next == t
    requires s.tasks[t].spec.kind == Future && s.tasks[t].spec.skippable
    ensures t < |DoNotify(s).tasks|
    ensures DoNotify(s).tasks[t].cell == [Failure(SkippedError(WhySkipped(DoNotify(s))))]
  {
    TaskHolds(s, t);
    assert s.tasks[t].cell == [] by {
      hide TaskOK, FailuresOK, LockOK;
      FutureSkippable(s.tasks[t], ViewOf(s, t), Escaped(s), s.cfg.errorHandler);
    }
    hide Inv, TaskOK;
  }

  lemma CheckKeepsTold(task: Task, step: Step)
    ensures CheckTask(task, step).told == task.told
  {
  }

  lemma ManagerKeepsTold(s: State, a: Action, t: nat)
    requires Inv(s) && ValidConfig(s.cfg) && Enabled(s, a) && IsManager(a) && t < |s.tasks|
    requires NewEvent(s, a) != Some(SkipE(t))
    ensures |Apply(s, a).tasks| == |s.tasks| && Apply(s, a).tasks[t].told == s.tasks[t].told
  {
    hide Inv, InvalidOrder, CheckTask, SkipTask, DoCheckNext;
    if a.CheckNext? {
      CheckShape(s);
      CheckKeepsTold(s.tasks[s.pc.next], s.pc.step);
    } else if !a.Notify? {
      hide Apply, Enabled;
      ManagerKeepsTasks(s, a);
    }
  }

  lemma StepKeepsTold(s: State, a: Action, t: nat)
    requires Inv(s) && ValidConfig(s.cfg) && Enabled(s, a) && t < |s.tasks| && NewEvent(s, a) != Some(SkipE(t))
    ensures t < |Apply(s, a).tasks| && Apply(s, a).tasks[t].told == s.tasks[t].told
  {
    hide Inv, Apply, Enabled;
    if IsGoroutine(a) || a.TaskReturn? {
      MoveKeepsSpec(s, a);
      MoveParts(s, a);
    } else if IsManager(a) {
      ManagerKeepsTold(s, a, t);
    } else {
      hide NewEvent;
      CallerShape(s, a);
    }
  }

  lemma NewTold(s: State, a: Action, t: nat)
    requires Inv(s) && ValidConfig(s.cfg) && Enabled(s, a) && |s.tasks| <= t < |Apply(s, a).tasks|
    ensures Apply(s, a).tasks[t].told == []
  {
    hide Inv, TickClock, EndShut, EndDown, Serve, NewTask, Apply;
    if IsGoroutine(a) || a.TaskReturn? {
      hide Enabled;
      MoveParts(s, a);
    } else if IsManager(a) {
      SameCount(s, a);
    } else {
      AddedTold(s, a, t);
    }
  }

  lemma SameCount(s: State, a: Action)
    requires Inv(s) && ValidConfig(s.cfg) && Enabled(s, a) && IsManager(a)
    ensures |Apply(s, a).tasks| == |s.tasks|
  {
    hide Inv, SkipTask, DoCheckNext;
    if a.CheckNext? { CheckShape(s); }
    else if !a.Notify? { hide Apply, Enabled; ManagerKeepsTasks(s, a); }
  }

  lemma AddedTold(s: State, a: Action, t: nat)
    requires ValidConfig(s.cfg) && Enabled(s, a) && !IsManager(a) && !IsGoroutine(a) && !a.TaskReturn?
    requires |s.tasks| <= t < |Apply(s, a).tasks|
    ensures Apply(s, a).tasks[t].told == []
  {
    hide TickClock, EndShut, EndDown, Serve;
    if a.Tick? { TickShape(s); }
    if a.CancelBase? { EndShape(s.(ctx := s.ctx.(base := Some(a.cause))), a.cause); }
    if a.Release? { ServeShape(s.(reg := s.reg.(lock := None)), s.reg.lock.value); }
  }

  /** A skip event of the state, and the task it is of. */
  lemma SkippedMeans(s: State, t: nat)
    requires t < |s.tasks|
    ensures Happened(s, SkipE(t)) <==> Skipped(s, t)
  {
    hide ViewOf;
  }

  lemma StepTold(s: State, a: Action, t: nat)
    requires Inv(s) && ValidConfig(s.cfg) && SkipsOK(s) && Enabled(s, a) && t < |Apply(s, a).tasks|
    requires Makes(s, Apply(s, a), NewEvent(s, a))
    ensures var s' := Apply(s, a); s'.tasks[t].told == if Skipped(s', t) then [WhySkipped(s')] else []
  {
    var s', e := Apply(s, a), NewEvent(s, a);
    hide Inv, Apply, Enabled, ViewOf, TaskOK, Happened, NewEvent;
    SkippedMeans(s', t);
    if t < |s.tasks| {
      SkippedMeans(s, t);
      assert s.tasks[t].told == if Skipped(s, t) then [WhySkipped(s)] else [];
      SpecKept(s, a, t);
      if e == Some(SkipE(t)) {
        SkipMade(s, a, t);
      } else {
        StepKeepsTold(s, a, t);
        if Skipped(s, t) {
          SkippedIdle(s, t);
          WhyKept(s, a);
        }
      }
    } else {
      NewTold(s, a, t);
      assert !Happened(s, SkipE(t)) by { OutOfRange(s, t); }
      assert e != Some(SkipE(t)) by { NoSkipEvent(s, a, t); }
    }
  }

  lemma OutOfRange(s: State, t: nat)
    requires t >= |s.tasks|
    ensures !Happened(s, SkipE(t))
  {
  }

  lemma NoSkipEvent(s: State, a: Action, t: nat)
    requires ValidConfig(s.cfg) && Enabled(s, a) && t >= |s.tasks|
    ensures NewEvent(s, a) != Some(SkipE(t))
  {
    hide TickClock, DoCancelBase;
  }

  lemma StepSkips(s: State, a: Action)
    requires Inv(s) && ValidConfig(s.cfg) && Linked(s) && SkipsOK(s) && Enabled(s, a)
    ensures SkipsOK(Apply(s, a))
  {
    hide Inv, Apply, Enabled, ViewOf, TaskOK;
    var s', e := Apply(s, a), NewEvent(s, a);
    StepMakes(s, a);
    StepInv(s, a);
    forall t | 0 <= t < |s'.tasks|
      ensures s'.tasks[t].told == if Skipped(s', t) then [WhySkipped(s')] else []
    {
      StepTold(s, a, t);
    }
    forall t | 0 <= t < |s'.tasks| && s'.tasks[t].spec.kind == Future && ViewOf(s', t).skipped
      ensures s'.tasks[t].cell == [Failure(SkippedError(WhySkipped(s')))]
    {
      StepCell(s, a, t);
    }
  }

  lemma StepCell(s: State, a: Action, t: nat)
    requires Inv(s) && ValidConfig(s.cfg) && SkipsOK(s) && Enabled(s, a) && t < |Apply(s, a).tasks|
    requires Makes(s, Apply(s, a), NewEvent(s, a)) && Inv(Apply(s, a))
    requires Apply(s, a).tasks[t].spec.kind == Future && ViewOf(Apply(s, a), t).skipped
    ensures Apply(s, a).tasks[t].cell == [Failure(SkippedError(WhySkipped(Apply(s, a))))]
  {
    hide Inv, Apply, Enabled, ViewOf, TaskOK;
    var s', e := Apply(s, a), NewEvent(s, a);
    TaskHolds(s', t);
    FutureSkippable(s'.tasks[t], ViewOf(s', t), Escaped(s'), s'.cfg.errorHandler);
    assert Happened(s', SkipE(t));
    if e == Some(SkipE(t)) {
      SkipMade(s, a, t);
    } else {
      assert Happened(s, SkipE(t));
      SpecKept(s, a, t);
      StepKeepsCell(s, a, t);
      SkippedIdle(s, t);
      WhyKept(s, a);
    }
  }

  lemma SkipMade(s: State, a: Action, t: nat)
    requires Inv(s) && ValidConfig(s.cfg) && SkipsOK(s) && Enabled(s, a) && NewEvent(s, a) == Some(SkipE(t))
    requires !Happened(s, SkipE(t))
    ensures t < |s.tasks| && t < |Apply(s, a).tasks| && Apply(s, a).tasks[t].spec == s.tasks[t].spec
    ensures Apply(s, a).tasks[t].told == [WhySkipped(Apply(s, a))]
    ensures s.tasks[t].spec.kind == Future ==>
              Apply(s, a).tasks[t].cell == [Failure(SkippedError(WhySkipped(Apply(s, a))))]
  {
    hide Inv, DoNotify, Happened, ViewOf;
    SpecKept(s, a, t);
    SkippedMeans(s, t);
    NowTold(s, t);
    if s.tasks[t].spec.kind == Future { NewlySkipped(s, t); }
  }

  lemma NowTold(s: State, t: nat)
    requires s.pc.Skipping? && s.pc.stage < s.cfg.stages && InStage(s, s.pc.stage, t) && s.pc.next == t
    requires s.tasks[t].spec.skippable && s.tasks[t].told == []
    ensures t < |DoNotify(s).tasks| && DoNotify(s).tasks[t].told == [WhySkipped(DoNotify(s))]
  {
  }
}
