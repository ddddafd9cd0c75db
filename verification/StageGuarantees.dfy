/** What a stage can rely on: the barriers between stages, and who is told that it will never run. */
module StageGuarantees {
  import opened Errors
  import opened Steps
  import opened Lifecycle
  import opened TaskInvariant
  import opened Invariant
  import opened History
  import opened Order
  import opened Stops
  import opened Skips
  import opened AllRuns
  import opened StepGuarantees

  /**
   * A setup is called only after each task of every earlier stage was checked for setup and start, after each of
   * their setups that was called returned, and after each of their start steps that was launched signalled so.
   */
  lemma SetupBarrier(s: State, j: nat, a: nat)
    requires Reachable(s) && j < |s.hist| && s.hist[j].CallE? && s.hist[j].step == Setup
    requires a < |s.tasks| && StageOf(s, a) < StageOf(s, s.hist[j].task)
    ensures CheckE(a, Setup) in s.hist[..j] && CheckE(a, Start) in s.hist[..j]
    ensures CallE(a, Setup) in s.hist ==> ReturnE(a, Setup) in s.hist[..j]
    ensures s.tasks[a].start != Launched
  {
    hide Inv, Happened, Reachable, Linked, NoRepeat, StopsOK, SkipsOK, Overdue;
    ReachableHistory(s);
    var b := s.hist[j].task;
    assert CallE(b, Setup) in s.hist;
    EarlierStage(s, b, a);
    NotAfter(s, CheckE(a, Setup), j);
    NotAfter(s, CheckE(a, Start), j);
    if CallE(a, Setup) in s.hist { NotAfter(s, ReturnE(a, Setup), j); }
  }

  lemma SetupLeft(task: Task, v: View, esc: bool, eh: ErrorHandler)
    requires TaskOK(task, v, esc, eh) && v.setup >= 2
    ensures Called(task.setup) ==> Over(task.setup)
    ensures v.start == 2 ==> task.start != Launched
  {
  }

  lemma EarlierStage(s: State, b: nat, a: nat)
    requires Inv(s) && Linked(s) && CallE(b, Setup) in s.hist && a < |s.tasks| && StageOf(s, a) < StageOf(s, b)
    ensures CheckE(a, Setup) in s.hist && CheckE(a, Start) in s.hist
    ensures CallE(a, Setup) in s.hist ==> ReturnE(a, Setup) in s.hist
    ensures s.tasks[a].start != Launched
  {
    assert Happened(s, CallE(b, Setup));
    hide TaskOK, ViewOf;
    TaskHolds(s, b);
    TaskHolds(s, a);
    TwoTasks(s, b, a);
    hide Inv;
    CalledView(s.tasks[b], Setup, ViewOf(s, b), Escaped(s), s.cfg.errorHandler);
    SetupLeft(s.tasks[a], ViewOf(s, a), Escaped(s), s.cfg.errorHandler);
    assert Happened(s, CheckE(a, Setup)) && Happened(s, CheckE(a, Start));
    assert CallE(a, Setup) in s.hist ==> Happened(s, CallE(a, Setup));
    assert CallE(a, Setup) in s.hist ==> Happened(s, ReturnE(a, Setup));
  }

  /**
   * While a stop step of a stage runs, a stop step of a later stage is entered or left only if the manager enforces
   * the timeout and the shutdown context had ended.
   */
  lemma StopBarrier(s: State, i: nat, j: nat)
    requires Reachable(s) && i < j < |s.hist| && Runs(s.hist[i], Stop) && Runs(s.hist[j], Stop)
    requires StageOf(s, s.hist[j].task) > StageOf(s, s.hist[i].task)
    ensures s.cfg.enforce && ShutE in s.hist[..j]
  {
    hide Inv, Happened, Reachable, Linked, NoRepeat, StopsOK, SkipsOK, Never, Overdue;
    ReachableHistory(s);
    CheckedBefore(s, i);
    var k :| 0 <= k < i && s.hist[k] == CheckE(s.hist[i].task, Stop);
    assert Overdue(s, s.hist[k], s.hist[j]) by { LaterStop(s, s.hist[k], s.hist[j]); }
  }

  lemma LaterStop(s: State, e: Event, later: Event)
    requires Checks(e, Stop) && Runs(later, Stop) && StageOf(s, later.task) > StageOf(s, e.task)
    ensures Overdue(s, e, later)
  {
  }

  /** The check of a step comes before the step is entered or left. */
  lemma CheckedBefore(s: State, i: nat)
    requires Reachable(s) && i < |s.hist| && (s.hist[i].CallE? || s.hist[i].ReturnE?)
    ensures exists k :: 0 <= k < i && s.hist[k] == CheckE(s.hist[i].task, s.hist[i].step)
  {
    hide Reachable;
    var e := s.hist[i];
    if e.CallE? {
      OnceAt(s, i);
      var k :| 0 <= k < |s.hist[..i]| && s.hist[..i][k] == CheckE(e.task, e.step);
      assert s.hist[k] == CheckE(e.task, e.step);
    } else {
      OnceAt(s, i);
      var c :| 0 <= c < |s.hist[..i]| && s.hist[..i][c] == CallE(e.task, e.step);
      assert s.hist[c] == CallE(e.task, e.step);
      OnceAt(s, c);
      var k :| 0 <= k < |s.hist[..c]| && s.hist[..c][k] == CheckE(e.task, e.step);
      assert s.hist[k] == CheckE(e.task, e.step);
    }
  }

  lemma OnceAt(s: State, j: nat)
    requires Reachable(s) && j < |s.hist|
    ensures s.hist[j].CallE? ==> CheckE(s.hist[j].task, s.hist[j].step) in s.hist[..j]
    ensures s.hist[j].ReturnE? ==> CallE(s.hist[j].task, s.hist[j].step) in s.hist[..j]
  {
    if j > 0 {
      AtMostOnce(s, j - 1, j);
    } else {
      ReachableHistory(s);
      hide Inv, Happened, Overdue;
      var e := s.hist[0];
      assert e in s.hist;
      if e.CallE? {
        CalledWasChecked(s, e.task, e.step);
        NotAfter(s, CheckE(e.task, e.step), 0);
      } else if e.ReturnE? {
        ReturnedWasCalled(s, e.task, e.step);
        NotAfter(s, CallE(e.task, e.step), 0);
      }
    }
  }

  /**
   * After a teardown step was entered no stop step is launched, a start or stop step is entered or left only if waiting
   * was given up, and no teardown step of a later stage is entered or left at all.
   */
  lemma TeardownBarrier(s: State, i: nat, j: nat)
    requires Reachable(s) && i < j < |s.hist| && Runs(s.hist[i], Teardown)
    ensures Runs(s.hist[j], Start) || Runs(s.hist[j], Stop) ==> s.cfg.enforce && ShutE in s.hist[..j]
    ensures Touches(s.hist[j], Teardown) ==> StageOf(s, s.hist[j].task) <= StageOf(s, s.hist[i].task)
    ensures !Checks(s.hist[j], Stop) && !Checks(s.hist[j], Start) && !Touches(s.hist[j], Setup)
  {
    hide Inv, Happened, Reachable, Linked, NoRepeat, StopsOK, SkipsOK, Never, Overdue;
    ReachableHistory(s);
    CheckedBefore(s, i);
    var k :| 0 <= k < i && s.hist[k] == CheckE(s.hist[i].task, Teardown);
    AfterTeardownCheck(s, s.hist[k], s.hist[j]);
  }

  lemma AfterTeardownCheck(s: State, e: Event, later: Event)
    requires Checks(e, Teardown) && !Never(s, e, later)
    ensures Runs(later, Start) || Runs(later, Stop) ==> Overdue(s, e, later)
    ensures Touches(later, Teardown) ==> StageOf(s, later.task) <= StageOf(s, e.task)
    ensures !Checks(later, Stop) && !Checks(later, Start) && !Touches(later, Setup)
  {
  }

  /** Once a stop step was entered nothing is set up, no start step is launched, and no task is skipped. */
  lemma ShutdownBarrier(s: State, i: nat, j: nat)
    requires Reachable(s) && i < j < |s.hist| && Runs(s.hist[i], Stop)
    ensures !Touches(s.hist[j], Setup) && !Checks(s.hist[j], Start) && !s.hist[j].SkipE?
  {
    hide Inv, Happened, Reachable, Linked, NoRepeat, StopsOK, SkipsOK, Never, Overdue;
    ReachableHistory(s);
    CheckedBefore(s, i);
    var k :| 0 <= k < i && s.hist[k] == CheckE(s.hist[i].task, Stop);
    AfterStopCheck(s, s.hist[k], s.hist[j]);
  }

  lemma AfterStopCheck(s: State, e: Event, later: Event)
    requires Checks(e, Stop) && !Never(s, e, later)
    ensures !Touches(later, Setup) && !Checks(later, Start) && !later.SkipE?
  {
  }

  /**
   * A stop step is launched exactly when the task has it or a start step manager, the start steps of its stage were
   * launched, and its own start step, if it has one, was entered before its stop step was checked.
   */
  lemma StopLaunched(s: State, t: nat)
    requires Reachable(s) && t < |s.tasks| && CheckE(t, Stop) in s.hist
    ensures s.tasks[t].stop != Idle <==>
              && (Stop in s.tasks[t].has || s.tasks[t].ssm)
              && CheckE(t, Start) in s.hist
              && (s.tasks[t].start == Idle || Precedes(s.hist, CallE(t, Start), CheckE(t, Stop)))
  {
    hide Inv, ViewOf, Precedes, Reachable, NoRepeat, Ordered, SkipsOK;
    ReachableHistory(s);
    assert Happened(s, CheckE(t, Stop));
    assert CheckE(t, Start) in s.hist <==> Happened(s, CheckE(t, Start));
  }

  /**
   * When Run returned, each task either was offered its setup step, when its stage was entered, or was skipped, if it
   * can be told. No task was both, and nothing happened twice.
   */
  lemma SetupOrSkip(s: State, t: nat)
    requires Reachable(s) && s.pc.Done? && t < |s.tasks|
    ensures CheckE(t, Setup) in s.hist <==> StageOf(s, t) < s.ran
    ensures SkipE(t) in s.hist <==> s.tasks[t].spec.skippable && StageOf(s, t) >= s.ran
    ensures s.tasks[t].told == if SkipE(t) in s.hist then [if s.pc.early then s.cause else s.failed] else []
    ensures NoRepeat(s.hist)
  {
    hide Inv, ViewOf, Reachable, NoRepeat, Ordered, StopsOK;
    ReachableHistory(s);
    DoneViews(s, t);
    SkippedMeans(s, t);
    assert CheckE(t, Setup) in s.hist <==> Happened(s, CheckE(t, Setup));
    assert SkipE(t) in s.hist <==> Happened(s, SkipE(t));
  }

  lemma DoneViews(s: State, t: nat)
    requires Inv(s) && s.pc.Done? && t < |s.tasks|
    ensures ViewOf(s, t).setup >= 1 <==> StageOf(s, t) < s.ran
    ensures ViewOf(s, t).skipped <==> StageOf(s, t) >= s.ran
  {
    hide TaskOK;
  }

  // ---------- tasks of which nothing runs ----------

  /** The task was called with some step. */
  predicate Ran(s: State, t: nat) { exists step: Step :: CallE(t, step) in s.hist }

  /** It was called, or told that it will never be. */
  predicate CalledOrTold(s: State, t: nat) { Ran(s, t) || SkipE(t) in s.hist }

  /** A start or stop step that the manager no longer waits for is yet to be called. */
  predicate StillToRun(task: Task) { Early(task.start) || (Early(task.stop) && Stop in task.has) }

  /** What a task has to do in a stage that was entered, and whose start steps were launched or not. */
  predicate HasWork(steps: set<Step>, started: bool) {
    Setup in steps || Teardown in steps || (started && (Start in steps || Stop in steps))
  }

  predicate AnyCalled(task: Task) {
    Called(task.setup) || Called(task.start) || Called(task.stop) || Called(task.teardown)
  }

  lemma FinalWork(task: Task, v: View, esc: bool, eh: ErrorHandler)
    requires TaskOK(task, v, esc, eh) && v.down == 2 && 2 <= v.setup && v.start != 1
    requires v.start == 2 && task.start == Idle && Stop in task.has ==> task.stop != Idle
    ensures AnyCalled(task) || StillToRun(task) <==> HasWork(task.spec.steps, v.start == 2)
    ensures StillToRun(task) ==> esc && v.start == 2
  {
    hide LogOK, SsmOK, ReadingsOK, FutureOK;
  }

  lemma UnusedWork(task: Task, v: View, esc: bool, eh: ErrorHandler)
    requires TaskOK(task, v, esc, eh) && v.setup == 0 && v.start == 0
    ensures !AnyCalled(task) && !StillToRun(task)
  {
  }

  lemma RanIsCalled(s: State, t: nat)
    requires Linked(s) && t < |s.tasks|
    ensures Ran(s, t) <==> AnyCalled(s.tasks[t])
  {
    var task := s.tasks[t];
    assert forall step: Step :: CallE(t, step) in s.hist <==> Happened(s, CallE(t, step));
    assert PhaseOf(task, Setup) == task.setup && PhaseOf(task, Start) == task.start;
    assert PhaseOf(task, Stop) == task.stop && PhaseOf(task, Teardown) == task.teardown;
    assert CallE(t, Setup) in s.hist <==> Called(task.setup);
    assert CallE(t, Start) in s.hist <==> Called(task.start);
    assert CallE(t, Stop) in s.hist <==> Called(task.stop);
    assert CallE(t, Teardown) in s.hist <==> Called(task.teardown);
  }

  lemma StopIsDue(s: State, t: nat)
    requires StopsOK(s) && t < |s.tasks| && ViewOf(s, t).stop >= 1
    ensures ViewOf(s, t).start >= 1 && s.tasks[t].start == Idle && Stop in s.tasks[t].has ==> s.tasks[t].stop != Idle
  {
    hide ViewOf, Precedes;
  }

  lemma EarlyReturnView(s: State, t: nat)
    requires Inv(s) && s.pc == Done(true) && t < |s.tasks|
    ensures ViewOf(s, t).setup == 0 && ViewOf(s, t).start == 0 && s.ran == 0
  {
    hide TasksOK;
  }

  /**
   * When Run returned, a task was called with some step exactly when its stage was entered and it had something to do
   * there: a setup or teardown step in any case, and a start or stop step if the start steps of the stage were
   * launched. Only past an enforced timeout may its start or stop step still be waiting to be called.
   */
  lemma RanExactly(s: State, t: nat)
    requires Reachable(s) && s.pc.Done? && t < |s.tasks|
    ensures Ran(s, t) || StillToRun(s.tasks[t]) <==>
              StageOf(s, t) < s.ran && HasWork(s.tasks[t].spec.steps, StageOf(s, t) < Started(s))
    ensures StillToRun(s.tasks[t]) ==> Escaped(s)
  {
    hide Reachable, Linked, NoRepeat, Ordered, StopsOK, SkipsOK, Inv, TaskOK, ViewOf;
    hide AnyCalled, StillToRun, HasWork, Ran;
    ReachableHistory(s);
    RanIsCalled(s, t);
    TaskHolds(s, t);
    if s.pc == Done(true) {
      EarlyReturnView(s, t);
      UnusedWork(s.tasks[t], ViewOf(s, t), Escaped(s), s.cfg.errorHandler);
    } else {
      DoneView(s, t);
      if StageOf(s, t) < s.ran {
        StopIsChecked(s, t);
        StopIsDue(s, t);
        FinalWork(s.tasks[t], ViewOf(s, t), Escaped(s), s.cfg.errorHandler);
      } else {
        UnusedWork(s.tasks[t], ViewOf(s, t), Escaped(s), s.cfg.errorHandler);
      }
    }
  }

  lemma StopIsChecked(s: State, t: nat)
    requires s.pc == Done(false) && t < |s.tasks|
    ensures ViewOf(s, t).stop >= 1
  {
  }

  /**
   * Exactly when a task that can be told is left alone: it is neither called nor told if and only if its stage was
   * entered and it had nothing to do there. (Past an enforced timeout a step of it may still be called.)
   */
  lemma LeftAloneExactly(s: State, t: nat)
    requires Reachable(s) && s.pc.Done? && t < |s.tasks| && s.tasks[t].spec.skippable
    ensures !CalledOrTold(s, t) && !StillToRun(s.tasks[t]) <==>
              StageOf(s, t) < s.ran && !HasWork(s.tasks[t].spec.steps, StageOf(s, t) < Started(s))
    ensures !Escaped(s) ==>
              (CalledOrTold(s, t) <==>
                 StageOf(s, t) >= s.ran || HasWork(s.tasks[t].spec.steps, StageOf(s, t) < Started(s)))
  {
    hide Reachable, HasWork, StillToRun, Ran;
    RanExactly(s, t);
    SetupOrSkip(s, t);
  }

  lemma {:induction false} HistoryGrowsFrom(s: State, acts: seq<Action>, s': State)
    requires RunOK(s) && Path(s, acts, s')
    ensures s.hist <= s'.hist
    decreases |acts|
  {
    hide Apply, Enabled, RunOK, Makes, NewEvent;
    if acts != [] {
      var next := Apply(s, acts[0]);
      assert Inv(s) by { RunParts(s); }
      StepRun(s, acts[0]);
      StepMakes(s, acts[0]);
      MakesGrow(s, next, NewEvent(s, acts[0]));
      HistoryGrowsFrom(next, acts[1..], s');
    }
  }

  /** The history only grows: what happened stays, and nothing that a run excludes happens later. */
  lemma HistoryGrows(s: State, acts: seq<Action>, s': State)
    requires Reachable(s) && Path(s, acts, s')
    ensures s.hist <= s'.hist
  {
    hide Reachable, RunOK;
    ReachableRun(s);
    HistoryGrowsFrom(s, acts, s');
  }

  lemma MakesGrow(s: State, s': State, e: Option<Event>)
    requires Makes(s, s', e)
    ensures s.hist <= s'.hist
  {
  }
}
