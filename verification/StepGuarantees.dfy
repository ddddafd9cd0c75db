/** What a task can rely on: which of its steps run, how often, and in which order. */
module StepGuarantees {
  import opened Errors
  import opened Steps
  import opened Lifecycle
  import opened TaskInvariant
  import opened Totals
  import opened Invariant
  import opened History
  import opened Order
  import opened Stops
  import opened Skips
  import opened AllRuns

  /** No check of the manager finds a step out of order, whether it enforces the timeout or not. */
  lemma OrderErrorUnreachable(s: State)
    requires Reachable(s) && s.pc.Scan? && InStage(s, s.pc.stage, s.pc.next)
    ensures !InvalidOrder(s.tasks[s.pc.next], s.pc.step)
  {
    hide Inv, InvalidOrder, Linked, NoRepeat, Ordered, StopsOK, SkipsOK;
    ReachableHistory(s);
    CheckNeverInvalid(s);
  }

  /** Each task is checked for, called with, and returns from each step at most once, and is skipped at most once. */
  lemma AtMostOnce(s: State, i: nat, j: nat)
    requires Reachable(s) && i < j < |s.hist|
    ensures s.hist[i] != s.hist[j]
    ensures s.hist[j].CallE? ==> CheckE(s.hist[j].task, s.hist[j].step) in s.hist[..j]
    ensures s.hist[j].ReturnE? ==> CallE(s.hist[j].task, s.hist[j].step) in s.hist[..j]
  {
    hide Inv, Happened, Overdue, Reachable, Linked, StopsOK, SkipsOK;
    ReachableHistory(s);
    var e := s.hist[j];
    assert e in s.hist;
    if e.CallE? {
      CalledWasChecked(s, e.task, e.step);
      NotAfter(s, CheckE(e.task, e.step), j);
    } else if e.ReturnE? {
      ReturnedWasCalled(s, e.task, e.step);
      NotAfter(s, CallE(e.task, e.step), j);
    }
  }

  /** An event of the history that never follows the one at `j` comes before it. */
  lemma NotAfter(s: State, e: Event, j: nat)
    requires j < |s.hist| && e in s.hist && e != s.hist[j] && Ordered(s)
    requires Never(s, s.hist[j], e)
    ensures e in s.hist[..j]
  {
    hide Never, Overdue;
    var i :| 0 <= i < |s.hist| && s.hist[i] == e;
    assert i < j;
    assert s.hist[..j][i] == e;
  }

  lemma CalledWasChecked(s: State, t: nat, step: Step)
    requires Inv(s) && Linked(s) && CallE(t, step) in s.hist
    ensures CheckE(t, step) in s.hist
  {
    hide Inv;
    assert Happened(s, CallE(t, step));
    assert Happened(s, CheckE(t, step)) by {
      TaskHolds(s, t);
      hide TaskOK;
      CalledView(s.tasks[t], step, ViewOf(s, t), Escaped(s), s.cfg.errorHandler);
    }
  }

  lemma CalledView(task: Task, step: Step, v: View, esc: bool, eh: ErrorHandler)
    requires TaskOK(task, v, esc, eh) && Called(PhaseOf(task, step))
    ensures Progress(v, step) >= 1
  {
  }

  lemma ReturnedWasCalled(s: State, t: nat, step: Step)
    requires Inv(s) && Linked(s) && ReturnE(t, step) in s.hist
    ensures CallE(t, step) in s.hist
  {
    hide Inv;
    assert Happened(s, ReturnE(t, step));
    assert Happened(s, CallE(t, step));
  }

  /** The step log never repeats a step, begins with setup, has no stop without an earlier start; without giving up
      waits it follows the order of the steps. */
  lemma StepLog(s: State, t: nat)
    requires Reachable(s) && t < |s.tasks|
    ensures WellLogged(s.tasks[t].log)
    ensures !s.cfg.enforce || s.ctx.shut == None ==> Subsequence(s.tasks[t].log, ALL_STEPS)
  {
    hide Reachable, Linked, NoRepeat, Ordered, StopsOK, SkipsOK, Inv, ViewOf;
    ReachableHistory(s);
    TaskHolds(s, t);
    if !Escaped(s) {
      InOrderIsSubsequence(s.tasks[t].log, 0);
      assert ALL_STEPS[0..] == ALL_STEPS;
    }
  }

  // ---------- rollback ----------

  /** Where a run ended for a task: which of its steps ran to their end. */
  lemma FinalTask(task: Task, v: View, esc: bool, eh: ErrorHandler)
    requires TaskOK(task, v, esc, eh) && v.down == 2 && v.setup != 1 && v.start != 1
    ensures task.setup == Idle || task.setup.Finished?
    ensures Setup in task.log <==> v.setup >= 2 && (task.setup == Idle || task.setup == Finished(None))
    ensures task.teardown.Finished? <==> Setup in task.log && Teardown in task.has
    ensures !task.teardown.Finished? ==> task.teardown == Idle
    ensures v.setup == 0 || (task.setup.Finished? && task.setup.err.Some?) ==> Unused(task)
    ensures v.setup == 0 ==> task.setup == Idle
    ensures v.start == 0 ==> task.start == Idle && task.stop == Idle && Start !in task.log && Stop !in task.log
    ensures v.start == 2 && !esc ==>
              (task.start.Finished? <==> Start in task.has) && (task.start == Idle <==> Start !in task.has)
  {
  }

  /** Nothing was recorded for the task, and no step but its setup was launched. */
  predicate Unused(task: Task) {
    task.log == [] && task.start == Idle && task.stop == Idle && task.teardown == Idle
  }

  lemma DoneView(s: State, t: nat)
    requires Inv(s) && t < |s.tasks| && s.pc == Done(false)
    ensures var v, stage := ViewOf(s, t), s.tasks[t].spec.stage;
      && v.down == 2
      && v.setup == (if stage < Started(s) then 3 else if stage < s.ran then 2 else 0)
      && v.start == (if stage < Started(s) then 2 else 0)
  {
    hide TaskOK;
  }

  /**
   * Exact rollback, for every failure and every interleaving: a teardown step runs exactly when the task has one and
   * its setup was recorded. A setup is recorded exactly when its stage was entered and it did not fail. A task whose
   * setup failed, or whose stage was not entered, runs nothing further; in the failing stage nothing starts or stops.
   */
  lemma ExactRollback(s: State, t: nat)
    requires Reachable(s) && s.pc == Done(false) && t < |s.tasks|
    ensures var task, stage := s.tasks[t], s.tasks[t].spec.stage;
      && (CallE(t, Teardown) in s.hist <==> Setup in task.log && Teardown in task.has)
      && (ReturnE(t, Teardown) in s.hist <==> CallE(t, Teardown) in s.hist)
      && (Setup in task.log <==> stage < s.ran && (task.setup == Idle || task.setup == Finished(None)))
      && (stage < s.ran ==> task.setup == Idle || task.setup.Finished?)
      && (stage >= s.ran ==> task.setup == Idle && Unused(task))
      && (task.setup.Finished? && task.setup.err.Some? ==> Unused(task))
      && (s.failed.Some? && stage == s.ran - 1 ==> task.start == Idle && task.stop == Idle)
  {
    hide Reachable, Linked, NoRepeat, Ordered, StopsOK, SkipsOK, Inv, TaskOK, ViewOf;
    ReachableHistory(s);
    DoneView(s, t);
    TaskHolds(s, t);
    FinalTask(s.tasks[t], ViewOf(s, t), Escaped(s), s.cfg.errorHandler);
    FinalEvents(s, t);
  }

  lemma FinalEvents(s: State, t: nat)
    requires Linked(s) && t < |s.tasks|
    ensures CallE(t, Teardown) in s.hist <==> Called(s.tasks[t].teardown)
    ensures ReturnE(t, Teardown) in s.hist <==> Over(s.tasks[t].teardown)
  {
    assert CallE(t, Teardown) in s.hist <==> Happened(s, CallE(t, Teardown));
    assert ReturnE(t, Teardown) in s.hist <==> Happened(s, ReturnE(t, Teardown));
  }

  lemma PastSetup(task: Task, v: View, esc: bool, eh: ErrorHandler)
    requires TaskOK(task, v, esc, eh) && v.setup != 1
    ensures ReportOf(task.setup).Some? <==> task.setup.Finished? && task.setup.err.Some?
    ensures ReportOf(task.setup).Some? ==> v.setup == 2
  {
  }

  lemma PastView(s: State, t: nat)
    requires Inv(s) && t < |s.tasks| && Past(s.pc)
    ensures ViewOf(s, t).setup != 1
    ensures ViewOf(s, t).setup == 2 ==> s.failed.Some?
  {
    hide TasksOK, FailuresOK, LockOK;
  }

  /** A stage fails exactly when one of its setups does. */
  lemma StageFails(s: State)
    requires Reachable(s) && Past(s.pc)
    ensures s.failed.Some? <==>
              exists t :: 0 <= t < |s.tasks| && s.tasks[t].setup.Finished? && s.tasks[t].setup.err.Some?
  {
    hide Reachable, Linked, NoRepeat, Ordered, StopsOK, SkipsOK, TasksOK, TaskOK, ViewOf, Total;
    ReachableHistory(s);
    forall t | 0 <= t < |s.tasks|
      ensures ReportOf(s.tasks[t].setup).Some? <==> s.tasks[t].setup.Finished? && s.tasks[t].setup.err.Some?
      ensures ReportOf(s.tasks[t].setup).Some? ==> s.failed.Some?
    {
      TaskHolds(s, t);
      PastView(s, t);
      PastSetup(s.tasks[t], ViewOf(s, t), Escaped(s), s.cfg.errorHandler);
    }
    TotalEmpty(s.tasks, SetupFailure(s.ran - 1));
    assert s.setupErrs == [] <==> multiset(s.setupErrs) == multiset{} by { EmptyMultiset(s.setupErrs); }
  }

  lemma EmptyMultiset(es: seq<Err>)
    ensures es == [] <==> multiset(es) == multiset{}
  {
    if es != [] { assert es[0] in multiset(es); }
  }
}
