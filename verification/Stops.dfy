/** Which stop steps are launched: those of the tasks whose start step was recorded by the time of the check. */
module Stops {
  import opened Errors
  import opened Steps
  import opened Lifecycle
  import opened TaskInvariant
  import opened Invariant
  import opened History
  import opened Order

  /** `x` comes before `y`. */
  ghost predicate Precedes(hist: seq<Event>, x: Event, y: Event) {
    exists i, j :: 0 <= i < j < |hist| && hist[i] == x && hist[j] == y
  }

  /** The start steps of the task's stage were launched, and its own was entered before its stop step was checked. */
  ghost predicate StopDue(s: State, t: nat)
    requires t < |s.tasks|
  {
    var task := s.tasks[t];
    && CanStart(task.has, task.ssm, Stop)
    && ViewOf(s, t).start >= 1
    && (task.start == Idle || Precedes(s.hist, CallE(t, Start), CheckE(t, Stop)))
  }

  ghost predicate StopsOK(s: State) {
    forall t :: 0 <= t < |s.tasks| && ViewOf(s, t).stop >= 1 ==> (s.tasks[t].stop != Idle <==> StopDue(s, t))
  }

  lemma BeforeKept(hist: seq<Event>, e: Option<Event>, x: Event, y: Event)
    requires y in hist && NoRepeat(Grown(hist, e))
    ensures Precedes(Grown(hist, e), x, y) == Precedes(hist, x, y)
  {
    if Precedes(Grown(hist, e), x, y) {
      var i, j :| 0 <= i < j < |Grown(hist, e)| && Grown(hist, e)[i] == x && Grown(hist, e)[j] == y;
      var k :| 0 <= k < |hist| && hist[k] == y;
      assert Grown(hist, e)[k] == y;
      assert j == k;
      assert hist[i] == x && hist[j] == y;
    }
    if Precedes(hist, x, y) {
      var i, j :| 0 <= i < j < |hist| && hist[i] == x && hist[j] == y;
      assert Grown(hist, e)[i] == x && Grown(hist, e)[j] == y;
    }
  }

  lemma BeforeLast(hist: seq<Event>, x: Event, y: Event)
    requires y !in hist && x != y
    ensures Precedes(hist + [y], x, y) == (x in hist)
  {
    var grown := hist + [y];
    if x in hist {
      var i :| 0 <= i < |hist| && hist[i] == x;
      assert grown[i] == x && grown[|hist|] == y;
    }
  }

  /** What decides on the stop step of a task, apart from the history. */
  predicate SameStop(task: Task, task': Task) {
    && (task'.start == Idle <==> task.start == Idle)
    && (task'.stop == Idle <==> task.stop == Idle)
    && task'.has == task.has && task'.ssm == task.ssm
  }

  lemma SetupOver(s: State, t: nat)
    requires Inv(s) && t < |s.tasks| && ViewOf(s, t).stop >= 1
    ensures !Live(s.tasks[t].setup)
  {
    hide TaskOK, ViewOf, FailuresOK, LockOK, PcOK;
    TaskHolds(s, t);
    PhaseViews(s.tasks[t], ViewOf(s, t), Escaped(s), s.cfg.errorHandler);
  }

  /** No goroutine move makes a step idle or launches it, and only a setup changes the steps of its task. */
  lemma MoveSameStop(s: State, a: Action)
    requires ValidConfig(s.cfg) && Enabled(s, a) && (IsGoroutine(a) || a.TaskReturn?)
    requires a.TaskReturn? ==> a.step != Setup
    ensures SameStop(s.tasks[a.task], Apply(s, a).tasks[a.task])
  {
    hide Apply, Enabled;
    MoveParts(s, a);
  }

  lemma CheckSameStop(task: Task, step: Step)
    requires step != Stop && step != Start
    ensures SameStop(task, CheckTask(task, step))
  {
  }

  lemma SkipSameStop(task: Task, cause: Option<Err>)
    ensures SameStop(task, SkipTask(task, cause))
  {
  }

  /** While the manager checks start steps, no stop step was checked. */
  lemma CheckingStart(s: State, t: nat)
    requires t < |s.tasks| && s.pc.Scan? && (s.pc.step == Start || s.pc.step == Setup)
    ensures ViewOf(s, t).stop == 0
  {
  }

  lemma ManagerSameStop(s: State, a: Action, t: nat)
    requires Inv(s) && ValidConfig(s.cfg) && Enabled(s, a) && IsManager(a) && t < |s.tasks|
    requires ViewOf(s, t).stop >= 1 && NewEvent(s, a) != Some(CheckE(t, Stop))
    ensures |Apply(s, a).tasks| == |s.tasks| && SameStop(s.tasks[t], Apply(s, a).tasks[t])
  {
    hide Inv, InvalidOrder, CheckTask, SkipTask, DoCheckNext, ViewOf, SameStop;
    ItselfSameStop(s.tasks[t]);
    if a.CheckNext? {
      CheckShape(s);
      if s.pc.step == Start || s.pc.step == Setup { CheckingStart(s, t); }
      else if s.pc.step == Teardown { CheckSameStop(s.tasks[s.pc.next], Teardown); }
    } else if a.Notify? {
      if s.pc.next < |s.tasks| { SkipSameStop(s.tasks[s.pc.next], SkipCause(s, s.pc.early)); }
    } else {
      hide Apply, Enabled;
      ManagerKeepsTasks(s, a);
    }
  }

  lemma StepSameStop(s: State, a: Action, t: nat)
    requires Inv(s) && ValidConfig(s.cfg) && Enabled(s, a) && t < |s.tasks|
    requires ViewOf(s, t).stop >= 1 && NewEvent(s, a) != Some(CheckE(t, Stop))
    ensures t < |Apply(s, a).tasks| && SameStop(s.tasks[t], Apply(s, a).tasks[t])
  {
    if IsGoroutine(a) || a.TaskReturn? {
      if a.task == t && a.TaskReturn? && a.step == Setup { SetupOver(s, t); }
      hide Inv, Apply, ViewOf, SameStop;
      MoveKeepsSpec(s, a);
      if a.task == t { MoveSameStop(s, a); } else { ItselfSameStop(s.tasks[t]); }
    } else if IsManager(a) {
      hide Inv, Apply, ViewOf, SameStop;
      ManagerSameStop(s, a, t);
    } else {
      hide Inv, Apply, Enabled, ViewOf, NewEvent;
      CallerShape(s, a);
    }
  }

  lemma ItselfSameStop(task: Task)
    ensures SameStop(task, task)
  {
  }

  // ---------- the check of the stop step ----------

  /** The check launches the stop step of a task exactly when its start step is recorded. */
  lemma CheckStopLaunches(task: Task, v: View, esc: bool, eh: ErrorHandler)
    requires TaskOK(task, v, esc, eh) && v.stop == 0 && ViewOK(AfterCheck(v, Stop))
    ensures var task' := CheckTask(task, Stop);
      && (task'.stop != Idle <==> CanStart(task.has, task.ssm, Stop) && Start in task.log)
      && task'.start == task.start && task'.has == task.has && task'.ssm == task.ssm
      && (Start in task.log <==> v.start >= 1 && (task.start == Idle || Called(task.start)))
  {
  }

  lemma CheckStops(s: State)
    requires Inv(s) && Linked(s) && s.pc.Scan? && s.pc.step == Stop && InStage(s, s.pc.stage, s.pc.next)
    ensures var s', t := DoCheckNext(s), s.pc.next;
      t < |s'.tasks| && (s'.tasks[t].stop != Idle <==> StopDue(s', t))
  {
    hide TaskOK, PcOK, LockOK, FailuresOK, DoCheckNext, CheckTask, ViewAt;
    var s', t := DoCheckNext(s), s.pc.next;
    CheckShape(s);
    CheckHist(s);
    CheckView(s);
    TaskHolds(s, t);
    CheckStopLaunches(s.tasks[t], ViewOf(s, t), Escaped(s), s.cfg.errorHandler);
    CheckTaskShape(s.tasks[t], Stop);
    assert !Happened(s, CheckE(t, Stop));
    assert CallE(t, Start) in s.hist <==> Called(s.tasks[t].start) by {
      assert CallE(t, Start) in s.hist <==> Happened(s, CallE(t, Start));
    }
    BeforeLast(s.hist, CallE(t, Start), CheckE(t, Stop));
  }

  lemma StepStops(s: State, a: Action)
    requires Inv(s) && ValidConfig(s.cfg) && Linked(s) && NoRepeat(s.hist) && StopsOK(s) && Enabled(s, a)
    ensures StopsOK(Apply(s, a))
  {
    hide Inv, Apply, Enabled, ViewOf, SameStop, NoRepeat;
    var s', e := Apply(s, a), NewEvent(s, a);
    StepMakes(s, a);
    StepLinked(s, a);
    forall t | 0 <= t < |s'.tasks| && ViewOf(s', t).stop >= 1
      ensures s'.tasks[t].stop != Idle <==> StopDue(s', t)
    {
      if e == Some(CheckE(t, Stop)) {
        assert a.CheckNext?;
        StopChecked(s, a);
      } else {
        assert Happened(s', CheckE(t, Stop));
        StepSameStop(s, a, t);
        StartChecked(s, a, t);
        SameStopDue(s, s', e, t);
      }
    }
  }

  lemma StopChecked(s: State, a: Action)
    requires Inv(s) && ValidConfig(s.cfg) && Linked(s) && Enabled(s, a) && a.CheckNext?
    requires NewEvent(s, a) == Some(CheckE(s.pc.next, Stop))
    ensures var s', t := Apply(s, a), s.pc.next;
      t < |s'.tasks| && (s'.tasks[t].stop != Idle <==> StopDue(s', t))
  {
    hide Inv, DoCheckNext, StopDue;
    CheckStops(s);
  }

  lemma StartChecked(s: State, a: Action, t: nat)
    requires Inv(s) && ValidConfig(s.cfg) && Enabled(s, a) && t < |s.tasks| && t < |Apply(s, a).tasks|
    requires ViewOf(s, t).stop >= 1
    ensures ViewOf(Apply(s, a), t).start >= 1 <==> ViewOf(s, t).start >= 1
  {
    hide Inv, Apply, ViewOf;
    var s' := Apply(s, a);
    StepMakes(s, a);
    assert Happened(s', CheckE(t, Start)) <==> ViewOf(s', t).start >= 1;
    assert Happened(s, CheckE(t, Start)) <==> ViewOf(s, t).start >= 1;
    if NewEvent(s, a) == Some(CheckE(t, Start)) {
      CheckingStart(s, t);
    }
  }

  lemma SameStopDue(s: State, s': State, e: Option<Event>, t: nat)
    requires StopsOK(s) && Linked(s) && t < |s.tasks| && t < |s'.tasks| && SameStop(s.tasks[t], s'.tasks[t])
    requires s'.hist == Grown(s.hist, e) && NoRepeat(s'.hist) && ViewOf(s, t).stop >= 1
    requires ViewOf(s', t).start >= 1 <==> ViewOf(s, t).start >= 1
    ensures s'.tasks[t].stop != Idle <==> StopDue(s', t)
  {
    hide ViewOf;
    assert Happened(s, CheckE(t, Stop));
    BeforeKept(s.hist, e, CallE(t, Start), CheckE(t, Stop));
  }
}
