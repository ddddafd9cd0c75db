/** Stage barriers: what may follow what in the history of a run. */
module Order {
  import opened Errors
  import opened Steps
  import opened Lifecycle
  import opened TaskInvariant
  import opened Invariant
  import opened History

  function StageOf(s: State, t: nat): nat { if t < |s.tasks| then s.tasks[t].spec.stage else 0 }

  /** The task's own code for the step is entered or left. */
  predicate Runs(e: Event, step: Step) { (e.CallE? || e.ReturnE?) && e.step == step }

  predicate Checks(e: Event, step: Step) { e.CheckE? && e.step == step }

  predicate Touches(e: Event, step: Step) { Runs(e, step) || Checks(e, step) }

  /** `later` never comes after `e`. */
  predicate Never(s: State, e: Event, later: Event) {
    // while a stage is set up, earlier stages are set up and their start steps were launched
    || (Runs(e, Setup) && (Touches(later, Setup) || Checks(later, Start)) &&
        StageOf(s, later.task) < StageOf(s, e.task))
    // once a stop step was checked nothing is set up, launched to start, or skipped
    || ((Checks(e, Stop) || Checks(e, Teardown)) && (Touches(later, Setup) || Checks(later, Start) || later.SkipE?))
    || (Checks(e, Teardown) && Checks(later, Stop))
    // stop steps are launched, and teardown steps launched and run, in reverse stage order
    || (Checks(e, Stop) && Checks(later, Stop) && StageOf(s, later.task) > StageOf(s, e.task))
    || (Checks(e, Teardown) && Touches(later, Teardown) && StageOf(s, later.task) > StageOf(s, e.task))
    // the steps of one task
    || (Runs(e, Stop) && later == CallE(e.task, Start))
    || ((Runs(e, Start) || Runs(e, Stop) || Runs(e, Teardown)) && Runs(later, Setup) && later.task == e.task)
    || (e.ReturnE? && later == CallE(e.task, e.step))
    || (e.CallE? && later == CheckE(e.task, e.step))
  }

  /** `later` comes after `e` only when the manager gave up waiting. */
  predicate Overdue(s: State, e: Event, later: Event) {
    // a stop step of a later stage runs while the stop steps of an earlier one are launched
    || (Checks(e, Stop) && Runs(later, Stop) && StageOf(s, later.task) > StageOf(s, e.task))
    // a start or stop step runs while teardown steps are launched
    || (Checks(e, Teardown) && (Runs(later, Start) || Runs(later, Stop)))
  }

  ghost predicate Ordered(s: State) {
    forall i, j :: 0 <= i < j < |s.hist| ==>
      && !Never(s, s.hist[i], s.hist[j])
      && (Overdue(s, s.hist[i], s.hist[j]) ==> s.cfg.enforce && ShutE in s.hist[..j])
  }

  /** `later` may be the next event after `e` happened. */
  predicate Fits(s: State, e: Event, later: Event) {
    !Never(s, e, later) && (Overdue(s, e, later) ==> Escaped(s))
  }

  // ---------- what the phases say about the views ----------

  lemma PhaseViews(task: Task, v: View, esc: bool, eh: ErrorHandler)
    requires TaskOK(task, v, esc, eh)
    ensures Live(task.setup) ==> v.setup == 1 && !Called(task.start) && !Called(task.stop) && !Called(task.teardown)
    ensures Live(task.start) ==> v.start >= 1 && (v.drained ==> esc)
    ensures Live(task.stop) ==> v.stop >= 1 && (v.stop == 2 ==> esc)
    ensures Live(task.teardown) ==> v.down == 1
    ensures Called(task.setup) ==> v.setup >= 1
    ensures Called(task.stop) ==> task.start != Ready
    ensures ViewOK(v)
  {
  }

  /** The views of two tasks `b` and `t` at the same time. */
  lemma TwoViews(pc: PC, ran: nat, started: nat, sb: nat, b: nat, st: nat, t: nat)
    requires started <= ran <= started + 1
    ensures var vb, vt := ViewAt(pc, ran, started, sb, b), ViewAt(pc, ran, started, st, t);
      && (vb.down >= 1 ==> vt.drained)
      && (vb.stop >= 1 && st > sb ==> vt.stop == 2)
      && (vb.down >= 1 && st > sb ==> vt.down == 2)
      && (vb.setup >= 1 && st < sb ==> vt.setup >= 2)
      && (vb.setup >= 1 && st < sb ==> vt.start == 2)
      && (vt.setup == 1 ==> vb.stop == 0)
  {
  }

  /** Everything the manager knows of two tasks, and of their phases. */
  lemma TwoTasks(s: State, b: nat, t: nat)
    requires Inv(s) && b < |s.tasks| && t < |s.tasks|
    ensures var vb, vt, sb, st := ViewOf(s, b), ViewOf(s, t), StageOf(s, b), StageOf(s, t);
      && (vb.down >= 1 ==> vb.stop >= 1 && vt.drained)
      && (vb.stop >= 1 && st > sb ==> vt.stop == 2)
      && (vb.down >= 1 && st > sb ==> vt.down == 2)
      && (vb.setup >= 1 && st < sb ==> vt.setup >= 2)
      && (vb.setup >= 1 && st < sb ==> vt.start == 2)
      && (vt.setup == 1 ==> vb.stop == 0)
  {
    hide TaskOK, PcOK, FailuresOK, LockOK, ViewAt;
    TaskHolds(s, b);
    TaskView(s.tasks[b], ViewOf(s, b), Escaped(s), s.cfg.errorHandler);
    TwoViews(s.pc, s.ran, Started(s), StageOf(s, b), b, StageOf(s, t), t);
  }

  lemma TaskView(task: Task, v: View, esc: bool, eh: ErrorHandler)
    requires TaskOK(task, v, esc, eh)
    ensures ViewOK(v)
  {
  }

  /** The code of a step of a live goroutine is entered, or left. */
  predicate Entered(s: State, t: nat, step: Step, later: Event) {
    t < |s.tasks| &&
    (|| (later == CallE(t, step) && PhaseOf(s.tasks[t], step) == Ready)
     || (later == ReturnE(t, step) && PhaseOf(s.tasks[t], step) == Calling))
  }

  lemma RunAfterCheck(s: State, t: nat, step: Step, e: Event, later: Event)
    requires Inv(s) && Happened(s, e) && e.CheckE? && Entered(s, t, step, later)
    ensures Fits(s, e, later)
  {
    hide TaskOK, Inv, ViewOf;
    TaskHolds(s, t);
    PhaseViews(s.tasks[t], ViewOf(s, t), Escaped(s), s.cfg.errorHandler);
    TwoTasks(s, e.task, t);
  }

  lemma RunAfterOwn(s: State, t: nat, step: Step, e: Event, later: Event)
    requires Inv(s) && Happened(s, e) && (e.CallE? || e.ReturnE?) && e.task == t && Entered(s, t, step, later)
    ensures Fits(s, e, later)
  {
    hide TaskOK, Inv, ViewOf;
    TaskHolds(s, t);
    PhaseViews(s.tasks[t], ViewOf(s, t), Escaped(s), s.cfg.errorHandler);
  }

  lemma RunAfterRun(s: State, t: nat, step: Step, e: Event, later: Event)
    requires Inv(s) && Happened(s, e) && (e.CallE? || e.ReturnE?) && e.task != t && Entered(s, t, step, later)
    ensures Fits(s, e, later)
  {
    hide TaskOK, Inv, ViewOf;
    TaskHolds(s, t);
    PhaseViews(s.tasks[t], ViewOf(s, t), Escaped(s), s.cfg.errorHandler);
    TaskHolds(s, e.task);
    PhaseViews(s.tasks[e.task], ViewOf(s, e.task), Escaped(s), s.cfg.errorHandler);
    TwoTasks(s, e.task, t);
  }

  lemma AfterOther(s: State, e: Event, later: Event)
    requires e.ShutE? || e.SkipE?
    ensures Fits(s, e, later)
  {
  }

  /** It runs where it may. */
  lemma RunFits(s: State, t: nat, step: Step, e: Event, later: Event)
    requires Inv(s) && Happened(s, e) && Entered(s, t, step, later)
    ensures Fits(s, e, later)
  {
    hide Inv, Happened, Entered, Fits;
    if e.CheckE? { RunAfterCheck(s, t, step, e, later); }
    else if e.CallE? || e.ReturnE? {
      if e.task == t { RunAfterOwn(s, t, step, e, later); } else { RunAfterRun(s, t, step, e, later); }
    }
    else { AfterOther(s, e, later); }
  }

  /** The view of a task while the manager checks a step of the tasks of stage `k`. */
  lemma ScanViewAt(step: Step, k: nat, i: nat, ran: nat, started: nat, sb: nat, b: nat)
    ensures var v := ViewAt(Scan(step, k, i), ran, started, sb, b);
      && (Rank(step) < 2 ==> v.stop == 0 && v.down == 0 && (v.setup >= 1 ==> sb <= k))
      && (step == Stop ==> v.down == 0 && (v.stop >= 1 ==> sb >= k))
      && (step == Teardown && v.down >= 1 ==> sb >= k)
  {
    match step { case Setup => case Start => case Stop => case Teardown => }
  }

  /** A task whose setup was entered belongs to a stage the manager has come to. */
  lemma CheckAfterRun(s: State, e: Event)
    requires Inv(s) && Happened(s, e) && (e.CallE? || e.ReturnE?)
    requires s.pc.Scan? && InStage(s, s.pc.stage, s.pc.next)
    ensures Rank(s.pc.step) < 2 && e.step == Setup ==> StageOf(s, e.task) <= s.pc.stage
    ensures e != CallE(s.pc.next, s.pc.step)
  {
    CheckNotCalled(s);
    hide TaskOK, PcOK, FailuresOK, LockOK, ViewAt, Inv;
    TaskHolds(s, e.task);
    PhaseViews(s.tasks[e.task], ViewOf(s, e.task), Escaped(s), s.cfg.errorHandler);
    ScanViewAt(s.pc.step, s.pc.stage, s.pc.next, s.ran, Started(s), StageOf(s, e.task), e.task);
  }

  lemma CheckAfterCheck(s: State, e: Event)
    requires Happened(s, e) && e.CheckE? && s.pc.Scan? && InStage(s, s.pc.stage, s.pc.next)
    ensures Rank(s.pc.step) < 2 ==> Rank(e.step) < 2
    ensures e.step == Teardown ==> s.pc.step == Teardown
    ensures e.step == s.pc.step && Rank(e.step) >= 2 ==> StageOf(s, e.task) >= s.pc.stage
  {
    hide ViewAt;
    ScanViewAt(s.pc.step, s.pc.stage, s.pc.next, s.ran, Started(s), StageOf(s, e.task), e.task);
  }

  lemma CheckFits(s: State, e: Event)
    requires Inv(s) && Happened(s, e) && s.pc.Scan? && InStage(s, s.pc.stage, s.pc.next)
    ensures Fits(s, e, CheckE(s.pc.next, s.pc.step))
  {
    hide Inv, Happened;
    if e.CallE? || e.ReturnE? { CheckAfterRun(s, e); }
    else if e.CheckE? { CheckAfterCheck(s, e); }
  }

  lemma SkipFits(s: State, t: nat, e: Event)
    requires Inv(s) && Happened(s, e) && s.pc.Skipping?
    ensures Fits(s, e, SkipE(t))
  {
    hide TaskOK, FailuresOK, LockOK;
  }

  // ---------- every run is ordered ----------

  /** The next event fits all events before it. */
  lemma NewFits(s: State, a: Action, e: Event)
    requires Inv(s) && Linked(s) && Enabled(s, a) && NewEvent(s, a).Some? && e in s.hist
    requires NewEvent(s, a).value != ShutE
    ensures Fits(s, e, NewEvent(s, a).value)
  {
    assert Happened(s, e);
    hide Inv, Happened, Fits;
    match a
    case Begin(t, step) => RunFits(s, t, step, e, CallE(t, step));
    case TaskReturn(t, step, _) => RunFits(s, t, step, e, ReturnE(t, step));
    case CheckNext => CheckFits(s, e);
    case Notify => SkipFits(s, s.pc.next, e);
    case _ =>
  }

  lemma MoveKeepsSpec(s: State, a: Action)
    requires Enabled(s, a) && (IsGoroutine(a) || a.TaskReturn?) && ValidConfig(s.cfg)
    ensures var s', t := Apply(s, a), a.task;
      t < |s.tasks| == |s'.tasks| && s'.tasks[t].spec == s.tasks[t].spec && s'.tasks == s.tasks[t := s'.tasks[t]]
  {
    hide PrepareTask, BeginTask, ReturnTask, SettleTask, WithPhase, PhaseOf, Plausible, DoReport;
    match a
    case Prepare(t, step) => PreparePhases(s.tasks[t], step);
    case Begin(t, step) => BeginPhases(s.tasks[t], step);
    case TaskReturn(t, step, out) => ReturnPhases(s.tasks[t], step, out);
    case Settle(t, step) => SettlePhases(s.tasks[t], step);
    case Report(t, step) =>
      ReportShape(s, t, step);
      PhasePhases(s.tasks[t], step, Reported(PhaseOf(s.tasks[t], step).err));
    case Exit(t, step) => PhasePhases(s.tasks[t], step, Finished(PhaseOf(s.tasks[t], step).err));
  }

  lemma ManagerKeepsSpec(s: State, a: Action, t: nat)
    requires Enabled(s, a) && IsManager(a) && ValidConfig(s.cfg) && t < |s.tasks| && Inv(s)
    ensures |Apply(s, a).tasks| == |s.tasks| && Apply(s, a).tasks[t].spec == s.tasks[t].spec
  {
    hide Inv, InvalidOrder, CheckTask, SkipTask, DoCheckNext;
    if a.CheckNext? {
      CheckShape(s);
      CheckTaskShape(s.tasks[s.pc.next], s.pc.step);
    } else if a.Notify? {
      if s.pc.next < |s.tasks| { SkipPhases(s.tasks[s.pc.next], SkipCause(s, s.pc.early)); }
    } else {
      hide Apply, Enabled;
      ManagerKeepsTasks(s, a);
    }
  }

  /** No task moves to another stage. */
  lemma SpecKept(s: State, a: Action, t: nat)
    requires Inv(s) && ValidConfig(s.cfg) && Enabled(s, a) && t < |s.tasks|
    ensures t < |Apply(s, a).tasks| && Apply(s, a).tasks[t].spec == s.tasks[t].spec
  {
    hide Inv;
    if IsGoroutine(a) || a.TaskReturn? {
      hide Apply;
      MoveKeepsSpec(s, a);
    } else if IsManager(a) {
      hide Apply;
      ManagerKeepsSpec(s, a, t);
    } else {
      hide Apply, Enabled;
      CallerShape(s, a);
    }
  }

  /** The stages of the tasks of two events did not change. */
  predicate SameStages(s: State, s': State, e: Event, d: Event) {
    && (e.ShutE? || StageOf(s', e.task) == StageOf(s, e.task))
    && (d.ShutE? || StageOf(s', d.task) == StageOf(s, d.task))
  }

  lemma SameOrder(s: State, s': State, e: Event, d: Event)
    requires SameStages(s, s', e, d)
    ensures Never(s', e, d) == Never(s, e, d) && Overdue(s', e, d) == Overdue(s, e, d)
  {
  }

  lemma EventInRange(s: State, e: Event)
    requires Happened(s, e) && !e.ShutE?
    ensures e.task < |s.tasks|
  {
  }

  lemma StepStages(s: State, a: Action, e: Event, d: Event)
    requires Inv(s) && ValidConfig(s.cfg) && Enabled(s, a) && Happened(s, e)
    requires Happened(s, d) || NewEvent(s, a) == Some(d)
    ensures SameStages(s, Apply(s, a), e, d)
  {
    hide Inv, Enabled, Apply, Happened;
    if !e.ShutE? { EventInRange(s, e); SpecKept(s, a, e.task); }
    if !d.ShutE? {
      NewInRange(s, a, d);
      SpecKept(s, a, d.task);
    }
  }

  lemma NewInRange(s: State, a: Action, d: Event)
    requires ValidConfig(s.cfg) && Enabled(s, a) && !d.ShutE? && (Happened(s, d) || NewEvent(s, a) == Some(d))
    ensures d.task < |s.tasks|
  {
  }

  lemma ConfigKept(s: State, a: Action)
    requires ValidConfig(s.cfg) && Enabled(s, a)
    ensures Apply(s, a).cfg == s.cfg
  {
    if IsManager(a) {
      hide CheckTask, SkipTask, Flat, BuildErrors, ExitCause, TimeoutError, MayProceed, InvalidOrder;
    } else {
      hide Apply, Enabled;
      BystanderShape(s, a);
    }
  }

  lemma StepOrdered(s: State, a: Action)
    requires Inv(s) && ValidConfig(s.cfg) && Enabled(s, a) && Linked(s) && Ordered(s)
    ensures Ordered(Apply(s, a))
  {
    hide Inv, Enabled, Apply, NewEvent, Never, Overdue, Fits, SameStages, Happened;
    var s', e := Apply(s, a), NewEvent(s, a);
    StepMakes(s, a);
    ConfigKept(s, a);
    forall i, j | 0 <= i < j < |s'.hist|
      ensures !Never(s', s'.hist[i], s'.hist[j])
      ensures Overdue(s', s'.hist[i], s'.hist[j]) ==> s'.cfg.enforce && ShutE in s'.hist[..j]
    {
      assert s'.hist[i] == s.hist[i] && s.hist[i] in s.hist;
      assert s'.hist[..j] == s.hist[..j];
      if j < |s.hist| {
        assert s.hist[j] in s.hist;
        StepStages(s, a, s.hist[i], s.hist[j]);
        SameOrder(s, s', s.hist[i], s.hist[j]);
      } else {
        StepStages(s, a, s.hist[i], e.value);
        SameOrder(s, s', s.hist[i], e.value);
        assert s.hist[..j] == s.hist;
        assert Fits(s, s.hist[i], e.value) by {
          if e.value == ShutE { ShutFits(s, s.hist[i]); } else { NewFits(s, a, s.hist[i]); }
        }
        UseFits(s, s.hist[i], e.value);
      }
    }
  }

  lemma ShutFits(s: State, e: Event)
    ensures Fits(s, e, ShutE)
  {
  }

  lemma UseFits(s: State, e: Event, later: Event)
    requires Fits(s, e, later) && Linked(s)
    ensures !Never(s, e, later)
    ensures Overdue(s, e, later) ==> s.cfg.enforce && ShutE in s.hist
  {
    hide Never, Overdue;
    assert ShutE in s.hist <==> Happened(s, ShutE);
  }
}
