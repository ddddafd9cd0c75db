/** What holds of every reachable state: each task's invariant, seen from where the manager is. */
module Invariant {
  import opened Errors
  import opened Steps
  import opened Lifecycle
  import opened TaskInvariant
  import opened Totals

  // ---------- the view of a task ----------

  /** Walking forward, the manager is at task `next` of stage `at`. */
  function Forward(stage: nat, t: nat, at: nat, next: nat, past: nat): nat {
    if stage < at then past else if stage == at && t < next then 1 else 0
  }

  function Backward(stage: nat, t: nat, at: nat, next: nat): nat {
    if stage > at then 2 else if stage == at && t < next then 1 else 0
  }

  function Waited(waited: bool): nat { if waited then 2 else 0 }

  /** How far a manager at `pc` is with task `t` of a stage. */
  function ViewAt(pc: PC, ran: nat, started: nat, stage: nat, t: nat): View {
    var setup := if stage < started then 3 else Waited(stage < ran);
    var start := Waited(stage < started);
    var unrun := stage >= ran;
    match pc
    case Scan(Setup, k, i) => View(Forward(stage, t, k, i, 3), Waited(stage < k), 0, false, 0, false)
    case Await(Setup, k) => View(Forward(stage, t, k, t + 1, 3), Waited(stage < k), 0, false, 0, false)
    case Scan(Start, k, i) => View(if stage <= k then 3 else 0, Forward(stage, t, k, i, 2), 0, false, 0, false)
    case Await(Start, k) => View(if stage <= k then 3 else 0, Forward(stage, t, k, t + 1, 2), 0, false, 0, false)
    case Skipping(k, i, true) => View(0, 0, 0, false, 0, stage < k || (stage == k && t < i))
    case Done(true) => View(0, 0, 0, false, 0, true)
    case Skipping(k, i, false) =>
      View(setup, start, 0, false, 0, unrun && (stage < k || (stage == k && t < i)))
    case Selecting => View(setup, start, 0, false, 0, unrun)
    case Scan(Stop, k, i) => View(setup, start, Backward(stage, t, k, i), false, 0, unrun)
    case Await(Stop, k) => View(setup, start, Backward(stage, t, k, t + 1), false, 0, unrun)
    case Draining => View(setup, start, 2, false, 0, unrun)
    case Turning => View(setup, start, 2, true, 0, unrun)
    case Scan(Teardown, k, i) => View(setup, start, 2, true, Backward(stage, t, k, i), unrun)
    case Await(Teardown, k) => View(setup, start, 2, true, Backward(stage, t, k, t + 1), unrun)
    case Closing => View(setup, start, 2, true, 2, unrun)
    case Building => View(setup, start, 2, true, 2, unrun)
    case Done(false) => View(setup, start, 2, true, 2, unrun)
    case _ => View(0, 0, 0, false, 0, false)
  }

  function ViewOf(s: State, t: nat): View
    requires t < |s.tasks|
  {
    ViewAt(s.pc, s.ran, Started(s), s.tasks[t].spec.stage, t)
  }

  // ---------- the manager ----------

  /** Run has not entered any stage, and may still return early. */
  predicate Before(pc: PC) {
    pc.Fresh? || pc.Claimed? || pc.Hooking? || pc.Publishing? || pc.Applying? || EarlyExit(pc)
  }

  predicate EarlyExit(pc: PC) { (pc.Skipping? && pc.early) || (pc.Done? && pc.early) }

  /** The manager walks the stages forward. */
  predicate Starting(pc: PC) { (pc.Scan? || pc.Await?) && (pc.step == Setup || pc.step == Start) }

  /** The walk forward is over. */
  predicate Past(pc: PC) { !Before(pc) && !Starting(pc) }

  predicate PcOK(s: State) {
    && (s.pc.Scan? || s.pc.Await? ==> s.pc.stage < s.cfg.stages)
    && (s.pc.Skipping? ==> s.pc.stage <= s.cfg.stages)
    && (s.pc.Skipping? && s.pc.early ==> s.cause.Some?)
    && (s.pc.Scan? || s.pc.Skipping? ==> s.pc.next <= |s.tasks|)
    && (Before(s.pc) ==> s.ran == 0 && s.failed == None)
    && (Starting(s.pc) ==> s.ran == s.pc.stage + 1 && s.failed == None)
    && (Past(s.pc) ==> 0 < s.ran <= s.cfg.stages && (s.failed == None ==> s.ran == s.cfg.stages))
    && (s.pc.Skipping? && !s.pc.early ==> s.ran <= s.pc.stage)
    && (s.ctx.shut.Some? ==> ShutOpen(s.pc) || s.pc == Done(false))
    && (s.ctx.published <==> !EarlyExit(s.pc) && !(s.pc.Fresh? || s.pc.Claimed? || s.pc.Hooking? || s.pc.Publishing?))
  }

  predicate TasksOK(s: State) {
    forall t :: 0 <= t < |s.tasks| ==>
      && s.tasks[t].spec.stage < s.cfg.stages
      && TaskOK(s.tasks[t], ViewOf(s, t), Escaped(s), s.cfg.errorHandler)
  }

  /** The manager holds exactly the setup failures reported in the stage entered last. */
  predicate FailuresOK(s: State) {
    && (s.ran == 0 ==> s.setupErrs == [])
    && (s.ran > 0 ==> multiset(s.setupErrs) == Total(s.tasks, SetupFailure(s.ran - 1)))
    && (s.pc.Scan? || s.pc.Await? ==> s.pc.step == Start ==> s.setupErrs == [])
    && (Past(s.pc) ==> s.failed == BuildErrors(s.setupErrs))
  }

  predicate LockOK(s: State) {
    && (s.reg.lock.Some? ==> ValidRequest(s.cfg, s.reg.lock.value.request))
    && (s.reg.lock.Some? && !s.reg.lock.value.sawRunning ==> s.pc.Fresh? || s.pc.Claimed?)
    && (s.reg.lock.Some? && s.reg.lock.value.sawRunning ==> !s.pc.Fresh?)
  }

  predicate Inv(s: State) {
    && ValidConfig(s.cfg)
    && PcOK(s)
    && LockOK(s)
    && TasksOK(s)
    && FailuresOK(s)
  }

  // ---------- moves that leave the manager where it is ----------

  predicate SameManager(s: State, s': State) {
    s'.cfg == s.cfg && s'.pc == s.pc && s'.ran == s.ran && s'.failed == s.failed && s'.ctx.shut == s.ctx.shut
  }

  /** Only task `t` moved, and the history grew. */
  predicate OneTask(s: State, s': State, t: nat) {
    && SameManager(s, s') && s'.ctx == s.ctx && s'.reg == s.reg && s'.cause == s.cause
    && t < |s.tasks| == |s'.tasks| && s'.tasks == s.tasks[t := s'.tasks[t]]
    && s'.tasks[t].spec == s.tasks[t].spec
  }

  lemma OneTaskKeeps(s: State, s': State, t: nat)
    requires TasksOK(s) && SameManager(s, s') && t < |s.tasks| == |s'.tasks|
    requires s'.tasks == s.tasks[t := s'.tasks[t]] && s'.tasks[t].spec == s.tasks[t].spec
    requires TaskOK(s'.tasks[t], ViewOf(s, t), Escaped(s), s.cfg.errorHandler)
    ensures TasksOK(s')
  {
    hide TaskOK;
    forall u | 0 <= u < |s'.tasks|
      ensures s'.tasks[u].spec.stage < s'.cfg.stages
      ensures TaskOK(s'.tasks[u], ViewOf(s', u), Escaped(s'), s'.cfg.errorHandler)
    {
      assert ViewOf(s', u) == ViewOf(s, u);
      if u != t { assert s'.tasks[u] == s.tasks[u]; }
    }
  }

  /** One task moved without reporting a setup. */
  lemma QuietMoveKeeps(s: State, s': State, t: nat)
    requires Inv(s) && OneTask(s, s', t) && s'.setupErrs == s.setupErrs
    requires ReportOf(s'.tasks[t].setup) == ReportOf(s.tasks[t].setup)
    requires TaskOK(s'.tasks[t], ViewOf(s, t), Escaped(s), s.cfg.errorHandler)
    ensures Inv(s')
  {
    hide TaskOK, Total, SetupFailure;
    OneTaskKeeps(s, s', t);
    if s.ran > 0 {
      FailuresSame(s.tasks, t, s'.tasks[t], s.ran - 1);
    }
  }

  /** The invariant of one task, taken out of the state's. */
  lemma TaskHolds(s: State, t: nat)
    requires Inv(s) && t < |s.tasks|
    ensures TaskOK(s.tasks[t], ViewOf(s, t), Escaped(s), s.cfg.errorHandler)
  {
    hide TaskOK;
  }

  lemma PrepareInv(s: State, t: nat, step: Step)
    requires Inv(s) && InPhase(s, t, step, Launched)
    ensures Inv(SetTask(s, t, PrepareTask(s.tasks[t], step)))
  {
    hide TaskOK, Inv, ViewOf;
    TaskHolds(s, t);
    PrepareKeeps(s.tasks[t], step, ViewOf(s, t), Escaped(s), s.cfg.errorHandler);
    QuietMoveKeeps(s, SetTask(s, t, PrepareTask(s.tasks[t], step)), t);
  }

  lemma BeginInv(s: State, t: nat, step: Step)
    requires Inv(s) && InPhase(s, t, step, Ready)
    ensures Inv(DoBegin(s, t, step))
  {
    hide TaskOK, Inv, ViewOf;
    TaskHolds(s, t);
    BeginKeeps(s.tasks[t], step, ViewOf(s, t), Escaped(s), s.cfg.errorHandler);
    QuietMoveKeeps(s, DoBegin(s, t, step), t);
  }

  lemma ReturnInv(s: State, t: nat, step: Step, out: Outcome)
    requires Inv(s) && InPhase(s, t, step, Calling) && Plausible(s.cfg, s.tasks[t], step, out)
    ensures Inv(DoReturn(s, t, step, out))
  {
    hide TaskOK, Inv, ViewOf;
    TaskHolds(s, t);
    ReturnKeeps(s.cfg, s.tasks[t], step, out, ViewOf(s, t), Escaped(s));
    QuietMoveKeeps(s, DoReturn(s, t, step, out), t);
  }

  lemma SettleInv(s: State, t: nat, step: Step)
    requires Inv(s) && t < |s.tasks| && PhaseOf(s.tasks[t], step).Returned?
    ensures Inv(SetTask(s, t, SettleTask(s.tasks[t], step)))
  {
    hide TaskOK, Inv, ViewOf;
    TaskHolds(s, t);
    SettleKeeps(s.tasks[t], step, ViewOf(s, t), Escaped(s), s.cfg.errorHandler);
    QuietMoveKeeps(s, SetTask(s, t, SettleTask(s.tasks[t], step)), t);
  }

  lemma ExitInv(s: State, t: nat, step: Step)
    requires Inv(s) && t < |s.tasks| && PhaseOf(s.tasks[t], step).Reported?
    ensures Inv(DoExit(s, t, step))
  {
    hide TaskOK, Inv, ViewOf;
    TaskHolds(s, t);
    var p := Finished(PhaseOf(s.tasks[t], step).err);
    EndKeeps(s.tasks[t], step, p, ViewOf(s, t), Escaped(s), s.cfg.errorHandler);
    QuietMoveKeeps(s, DoExit(s, t, step), t);
  }

  /** A setup that is not over belongs to the stage the manager waits for. */
  lemma LiveSetup(s: State, t: nat)
    requires Inv(s) && t < |s.tasks| && Live(s.tasks[t].setup)
    ensures (s.pc.Scan? || s.pc.Await?) && s.pc.step == Setup && s.tasks[t].spec.stage == s.pc.stage == s.ran - 1
  {
    hide TaskOK, FailuresOK, LockOK;
    TaskHolds(s, t);
    assert 1 <= ViewOf(s, t).setup < 2 by { SetupView(s.tasks[t], ViewOf(s, t), Escaped(s), s.cfg.errorHandler); }
  }

  lemma SetupView(task: Task, v: View, esc: bool, eh: ErrorHandler)
    requires TaskOK(task, v, esc, eh)
    ensures Live(task.setup) ==> 1 <= v.setup < 2
    ensures v.setup == 0 ==> task.setup == Idle
    ensures task.setup == Idle && v.setup >= 1 ==> Setup in task.log
    ensures ReportOf(task.setup) == None && !Live(task.setup) && v.setup >= 1 ==> Setup in task.log
  {
  }

  lemma ReportShape(s: State, t: nat, step: Step)
    requires t < |s.tasks| && PhaseOf(s.tasks[t], step).Settled?
    ensures var s', err := DoReport(s, t, step), PhaseOf(s.tasks[t], step).err;
      && s'.tasks == s.tasks[t := WithPhase(s.tasks[t], step, Reported(err))]
      && s'.setupErrs == (if step == Setup && err.Some? then s.setupErrs + [InitializationError(err.value)]
                          else s.setupErrs)
      && SameManager(s, s') && s'.reg == s.reg && s'.cause == s.cause && s'.ctx.published == s.ctx.published
  {
  }

  /** The setup errors and the failures of the tasks grow by the same error. */
  lemma ReportTotal(s: State, t: nat, step: Step, stage: nat)
    requires t < |s.tasks| && PhaseOf(s.tasks[t], step).Settled?
    requires step == Setup ==> s.tasks[t].spec.stage == stage
    requires multiset(s.setupErrs) == Total(s.tasks, SetupFailure(stage))
    ensures multiset(DoReport(s, t, step).setupErrs) == Total(DoReport(s, t, step).tasks, SetupFailure(stage))
  {
    hide DoReport, Total, SetupFailure;
    ReportShape(s, t, step);
    var task := s.tasks[t];
    var err := PhaseOf(task, step).err;
    if step == Setup && err.Some? {
      FailureAdds(s.tasks, t, stage);
    } else {
      FailuresSame(s.tasks, t, WithPhase(task, step, Reported(err)), stage);
    }
  }

  lemma ReportFailures(s: State, t: nat, step: Step)
    requires Inv(s) && t < |s.tasks| && PhaseOf(s.tasks[t], step).Settled?
    ensures FailuresOK(DoReport(s, t, step))
  {
    hide DoReport, TasksOK, TaskOK, PcOK, LockOK, Total, SetupFailure, BuildErrors, WithPhase;
    ReportShape(s, t, step);
    if step == Setup { LiveSetup(s, t); }
    if s.ran > 0 { ReportTotal(s, t, step, s.ran - 1); }
  }

  lemma ReportInv(s: State, t: nat, step: Step)
    requires Inv(s) && t < |s.tasks| && PhaseOf(s.tasks[t], step).Settled?
    ensures Inv(DoReport(s, t, step))
  {
    TaskHolds(s, t);
    var p := Reported(PhaseOf(s.tasks[t], step).err);
    EndKeeps(s.tasks[t], step, p, ViewOf(s, t), Escaped(s), s.cfg.errorHandler);
    ReportFailures(s, t, step);
    ReportShape(s, t, step);
    ManagerStays(s, DoReport(s, t, step));
    hide TaskOK, FailuresOK, ViewOf, PcOK, LockOK, DoReport;
    OneTaskKeeps(s, DoReport(s, t, step), t);
  }

  lemma ManagerStays(s: State, s': State)
    requires Inv(s) && SameManager(s, s') && s'.reg == s.reg && s'.cause == s.cause && |s'.tasks| == |s.tasks|
    requires s'.ctx.published == s.ctx.published
    ensures PcOK(s') && LockOK(s')
  {
    hide TaskOK;
  }

  // ---------- moves of the manager ----------

  /** The tasks stay as they are, and the new view of each of them is earned. */
  lemma ViewsKeep(s: State, s': State)
    requires Inv(s) && s'.tasks == s.tasks && s'.cfg == s.cfg && (Escaped(s) ==> Escaped(s'))
    requires forall t :: 0 <= t < |s.tasks| ==>
               ViewOK(ViewOf(s', t)) && Advances(s.tasks[t], ViewOf(s, t), ViewOf(s', t), Escaped(s))
    ensures TasksOK(s')
  {
    hide TaskOK, FailuresOK, LockOK, PcOK, Advances;
    forall t | 0 <= t < |s'.tasks|
      ensures TaskOK(s'.tasks[t], ViewOf(s', t), Escaped(s'), s'.cfg.errorHandler)
    {
      var eh := s.cfg.errorHandler;
      AdvanceKeeps(s.tasks[t], ViewOf(s, t), ViewOf(s', t), Escaped(s), eh);
      if Escaped(s') { EscapeKeeps(s.tasks[t], ViewOf(s', t), Escaped(s), eh); }
    }
  }

  /** Nothing the manager waited for was missed, so a view may also stay as it is. */
  lemma SameViewAdvances(task: Task, v: View, esc: bool, eh: ErrorHandler)
    requires TaskOK(task, v, esc, eh)
    ensures ViewOK(v) && Advances(task, v, v, esc)
  {
  }

  lemma SameViewsKeep(s: State, s': State)
    requires Inv(s) && s'.tasks == s.tasks && s'.cfg == s.cfg && (Escaped(s) ==> Escaped(s'))
    requires forall t :: 0 <= t < |s.tasks| ==> ViewOf(s', t) == ViewOf(s, t)
    ensures TasksOK(s')
  {
    hide TaskOK, FailuresOK, LockOK, PcOK, Advances, ViewOf;
    forall t | 0 <= t < |s.tasks|
      ensures ViewOK(ViewOf(s', t)) && Advances(s.tasks[t], ViewOf(s, t), ViewOf(s', t), Escaped(s))
    {
      SameViewAdvances(s.tasks[t], ViewOf(s, t), Escaped(s), s.cfg.errorHandler);
    }
    ViewsKeep(s, s');
  }

  lemma EndScanTasks(s: State)
    requires Inv(s) && s.pc.Scan? && s.pc.next == |s.tasks|
    ensures TasksOK(s.(pc := Await(s.pc.step, s.pc.stage)))
  {
    hide TaskOK, TasksOK, LockOK, FailuresOK;
    SameViewsKeep(s, s.(pc := Await(s.pc.step, s.pc.stage)));
  }

  /** The checked task comes one step further. */
  lemma CheckViewAt(step: Step, k: nat, t: nat, ran: nat, started: nat)
    requires started <= ran
    ensures var v := ViewAt(Scan(step, k, t), ran, started, k, t);
      && Progress(v, step) == 0
      && ViewAt(Scan(step, k, t + 1), ran, started, k, t) == AfterCheck(v, step)
      && ViewOK(AfterCheck(v, step))
  {
    match step { case Setup => case Start => case Stop => case Teardown => }
  }

  lemma OtherViewAt(step: Step, k: nat, i: nat, ran: nat, started: nat, stage: nat, t: nat)
    requires t != i || stage != k
    ensures ViewAt(Scan(step, k, i + 1), ran, started, stage, t) == ViewAt(Scan(step, k, i), ran, started, stage, t)
  {
    match step { case Setup => case Start => case Stop => case Teardown => }
  }

  /** The view of a checked task, in the state. */
  lemma CheckView(s: State)
    requires PcOK(s) && s.pc.Scan? && s.pc.next < |s.tasks| && InStage(s, s.pc.stage, s.pc.next)
    ensures Progress(ViewOf(s, s.pc.next), s.pc.step) == 0
    ensures ViewAt(Scan(s.pc.step, s.pc.stage, s.pc.next + 1), s.ran, Started(s), s.pc.stage, s.pc.next)
         == AfterCheck(ViewOf(s, s.pc.next), s.pc.step)
    ensures ViewOK(AfterCheck(ViewOf(s, s.pc.next), s.pc.step))
  {
    hide PcOK, ViewAt;
    CheckViewAt(s.pc.step, s.pc.stage, s.pc.next, s.ran, Started(s));
  }

  /** The manager's own checks are in order: the error of a check out of order never arises. */
  lemma CheckNeverInvalid(s: State)
    requires Inv(s) && s.pc.Scan? && s.pc.next < |s.tasks| && InStage(s, s.pc.stage, s.pc.next)
    ensures !InvalidOrder(s.tasks[s.pc.next], s.pc.step)
  {
    hide TaskOK, ViewOf, InvalidOrder, FailuresOK, LockOK;
    var t := s.pc.next;
    TaskHolds(s, t);
    CheckView(s);
    TaskSteps(s.tasks[t], ViewOf(s, t), Escaped(s), s.cfg.errorHandler);
    CheckInOrder(s.tasks[t], s.pc.step, ViewOf(s, t), Escaped(s));
  }

  lemma TaskSteps(task: Task, v: View, esc: bool, eh: ErrorHandler)
    requires TaskOK(task, v, esc, eh)
    ensures StepsOK(task, v, esc)
  {
  }

  lemma CheckShape(s: State)
    requires Inv(s) && s.pc.Scan? && s.pc.next < |s.tasks|
    ensures var s', t := DoCheckNext(s), s.pc.next;
      && s'.tasks == (if InStage(s, s.pc.stage, t) then s.tasks[t := CheckTask(s.tasks[t], s.pc.step)] else s.tasks)
      && s' == s.(tasks := s'.tasks, hist := s'.hist, pc := Scan(s.pc.step, s.pc.stage, t + 1))
  {
    hide Inv, InvalidOrder, CheckTask;
    if InStage(s, s.pc.stage, s.pc.next) { CheckNeverInvalid(s); }
  }

  lemma CheckTaskShape(task: Task, step: Step)
    ensures CheckTask(task, step).spec == task.spec
    ensures task.setup == Idle || step != Setup ==> ReportOf(CheckTask(task, step).setup) == ReportOf(task.setup)
  {
  }

  lemma CheckTasks(s: State)
    requires Inv(s) && s.pc.Scan? && s.pc.next < |s.tasks|
    ensures TasksOK(DoCheckNext(s))
  {
    hide TaskOK, DoCheckNext, CheckTask, ViewAt, PcOK, LockOK, FailuresOK;
    var s', t, step := DoCheckNext(s), s.pc.next, s.pc.step;
    CheckShape(s);
    CheckTaskShape(s.tasks[t], step);
    forall u | 0 <= u < |s'.tasks|
      ensures s'.tasks[u].spec.stage < s'.cfg.stages
      ensures TaskOK(s'.tasks[u], ViewOf(s', u), Escaped(s'), s'.cfg.errorHandler)
    {
      TaskHolds(s, u);
      if u == t && InStage(s, s.pc.stage, t) {
        CheckView(s);
        CheckKeeps(s.tasks[t], step, ViewOf(s, t), Escaped(s), s.cfg.errorHandler);
      } else {
        OtherViewAt(step, s.pc.stage, t, s.ran, Started(s), s.tasks[u].spec.stage, u);
      }
    }
  }

  lemma CheckRest(s: State)
    requires Inv(s) && s.pc.Scan? && s.pc.next < |s.tasks|
    ensures PcOK(DoCheckNext(s)) && LockOK(DoCheckNext(s)) && FailuresOK(DoCheckNext(s))
  {
    hide TaskOK, TasksOK, DoCheckNext, CheckTask, ViewAt, Total, SetupFailure;
    var t := s.pc.next;
    CheckShape(s);
    CheckTaskShape(s.tasks[t], s.pc.step);
    if InStage(s, s.pc.stage, t) && s.ran > 0 {
      if s.pc.step == Setup {
        TaskHolds(s, t);
        CheckView(s);
        SetupView(s.tasks[t], ViewOf(s, t), Escaped(s), s.cfg.errorHandler);
      }
      FailuresSame(s.tasks, t, CheckTask(s.tasks[t], s.pc.step), s.ran - 1);
    }
  }

  // ---------- waits ----------

  /** When no setup of the stage failed, all of them are recorded. */
  lemma SetupsRecorded(s: State, t: nat)
    requires Inv(s) && s.pc.Await? && s.pc.step == Setup && StageQuiet(s, Setup, s.pc.stage) && s.setupErrs == []
    requires InStage(s, s.pc.stage, t)
    ensures Setup in s.tasks[t].log && !Live(s.tasks[t].setup)
  {
    hide TaskOK, LockOK, Total;
    TaskHolds(s, t);
    SetupView(s.tasks[t], ViewOf(s, t), Escaped(s), s.cfg.errorHandler);
    assert ReportOf(s.tasks[t].setup) == None by {
      TotalEmpty(s.tasks, SetupFailure(s.ran - 1));
      assert SetupFailure(s.ran - 1)(s.tasks[t]) == multiset{};
    }
  }

  lemma ProceedSetupView(s: State, t: nat)
    requires Inv(s) && s.pc.Await? && s.pc.step == Setup && MayProceed(s, Setup, s.pc.stage) && t < |s.tasks|
    ensures ViewOK(ViewOf(DoProceed(s), t))
    ensures Advances(s.tasks[t], ViewOf(s, t), ViewOf(DoProceed(s), t), Escaped(s))
  {
    hide TaskOK, LockOK, Total, SetupFailure;
    TaskHolds(s, t);
    SameViewAdvances(s.tasks[t], ViewOf(s, t), Escaped(s), s.cfg.errorHandler);
    if s.setupErrs == [] && InStage(s, s.pc.stage, t) {
      SetupsRecorded(s, t);
    }
  }

  lemma ProceedStartView(s: State, t: nat)
    requires Inv(s) && s.pc.Await? && s.pc.step == Start && MayProceed(s, Start, s.pc.stage) && t < |s.tasks|
    ensures ViewOK(ViewOf(DoProceed(s), t))
    ensures Advances(s.tasks[t], ViewOf(s, t), ViewOf(DoProceed(s), t), Escaped(s))
  {
    hide TaskOK, LockOK, Total, SetupFailure;
    TaskHolds(s, t);
    SameViewAdvances(s.tasks[t], ViewOf(s, t), Escaped(s), s.cfg.errorHandler);
  }

  lemma ProceedStopView(s: State, t: nat)
    requires Inv(s) && s.pc.Await? && s.pc.step == Stop && MayProceed(s, Stop, s.pc.stage) && t < |s.tasks|
    ensures ViewOK(ViewOf(DoProceed(s), t))
    ensures Advances(s.tasks[t], ViewOf(s, t), ViewOf(DoProceed(s), t), Escaped(s))
  {
    hide TaskOK, LockOK, Total, SetupFailure;
    TaskHolds(s, t);
    SameViewAdvances(s.tasks[t], ViewOf(s, t), Escaped(s), s.cfg.errorHandler);
  }

  lemma ProceedTeardownView(s: State, t: nat)
    requires Inv(s) && s.pc.Await? && s.pc.step == Teardown && MayProceed(s, Teardown, s.pc.stage) && t < |s.tasks|
    ensures ViewOK(ViewOf(DoProceed(s), t))
    ensures Advances(s.tasks[t], ViewOf(s, t), ViewOf(DoProceed(s), t), Escaped(s))
  {
    hide TaskOK, LockOK, Total, SetupFailure;
    TaskHolds(s, t);
    SameViewAdvances(s.tasks[t], ViewOf(s, t), Escaped(s), s.cfg.errorHandler);
  }

  lemma ProceedTasks(s: State)
    requires Inv(s) && s.pc.Await? && MayProceed(s, s.pc.step, s.pc.stage)
    ensures TasksOK(DoProceed(s))
  {
    hide TaskOK, TasksOK, PcOK, FailuresOK, LockOK, ViewOf, Advances, ViewOK, MayProceed;
    var s' := DoProceed(s);
    forall t | 0 <= t < |s.tasks|
      ensures ViewOK(ViewOf(s', t)) && Advances(s.tasks[t], ViewOf(s, t), ViewOf(s', t), Escaped(s))
    {
      match s.pc.step
      case Setup => ProceedSetupView(s, t);
      case Start => ProceedStartView(s, t);
      case Stop => ProceedStopView(s, t);
      case Teardown => ProceedTeardownView(s, t);
    }
    ViewsKeep(s, s');
  }

  lemma ProceedRest(s: State)
    requires Inv(s) && s.pc.Await? && MayProceed(s, s.pc.step, s.pc.stage)
    ensures PcOK(DoProceed(s)) && LockOK(DoProceed(s)) && FailuresOK(DoProceed(s))
  {
    hide TaskOK, TasksOK, Total, SetupFailure;
    if s.pc.step == Start && s.pc.stage + 1 < s.cfg.stages {
      NoFailuresAhead(s);
    }
  }

  /** No task of a stage not yet entered reported a setup. */
  lemma NoFailuresAhead(s: State)
    requires Inv(s) && s.pc.Await? && s.pc.step == Start
    ensures Total(s.tasks, SetupFailure(s.pc.stage + 1)) == multiset{}
  {
    hide TaskOK, LockOK, Total;
    forall t | 0 <= t < |s.tasks|
      ensures SetupFailure(s.pc.stage + 1)(s.tasks[t]) == multiset{}
    {
      if s.tasks[t].spec.stage == s.pc.stage + 1 {
        TaskHolds(s, t);
        SetupView(s.tasks[t], ViewOf(s, t), Escaped(s), s.cfg.errorHandler);
      }
    }
    TotalEmpty(s.tasks, SetupFailure(s.pc.stage + 1));
  }

  // ---------- skipping ----------

  function AfterSkip(v: View): View { v.(skipped := true) }

  lemma SkipViewAt(k: nat, i: nat, early: bool, ran: nat, started: nat, stage: nat, t: nat)
    requires !early ==> started <= ran <= k
    ensures var v, v' := ViewAt(Skipping(k, i, early), ran, started, stage, t),
                         ViewAt(Skipping(k, i + 1, early), ran, started, stage, t);
      if stage == k && t == i then v.setup == 0 && v' == AfterSkip(v)
      else v' == v
  {
  }

  lemma NotifyOneTasks(s: State)
    requires Inv(s) && s.pc.Skipping? && s.pc.stage < s.cfg.stages && s.pc.next < |s.tasks|
    ensures TasksOK(DoNotify(s))
  {
    hide TaskOK, ViewAt, LockOK, FailuresOK, SkipTask;
    var s', t := DoNotify(s), s.pc.next;
    forall u | 0 <= u < |s'.tasks|
      ensures s'.tasks[u].spec.stage < s'.cfg.stages
      ensures TaskOK(s'.tasks[u], ViewOf(s', u), Escaped(s'), s'.cfg.errorHandler)
    {
      TaskHolds(s, u);
      SkipViewAt(s.pc.stage, t, s.pc.early, s.ran, Started(s), s.tasks[u].spec.stage, u);
      SkipKeepsSpec(s.tasks[t], SkipCause(s, s.pc.early));
      if u == t && InStage(s, s.pc.stage, t) {
        SkipKeeps(s.tasks[t], SkipCause(s, s.pc.early), ViewOf(s, t), Escaped(s), s.cfg.errorHandler);
      }
    }
  }

  lemma SkipKeepsSpec(task: Task, cause: Option<Err>)
    ensures SkipTask(task, cause).spec == task.spec && SkipTask(task, cause).setup == task.setup
  {
  }

  lemma NotifyTasks(s: State)
    requires Inv(s) && s.pc.Skipping?
    ensures TasksOK(DoNotify(s))
  {
    hide TaskOK, LockOK, FailuresOK;
    if s.pc.stage < s.cfg.stages && s.pc.next < |s.tasks| {
      hide Inv, TasksOK, DoNotify;
      NotifyOneTasks(s);
    } else {
      SameViewsKeep(s, DoNotify(s));
    }
  }

  lemma NotifyRest(s: State)
    requires Inv(s) && s.pc.Skipping?
    ensures PcOK(DoNotify(s)) && LockOK(DoNotify(s)) && FailuresOK(DoNotify(s))
  {
    hide TaskOK, TasksOK, Total, SetupFailure, SkipTask;
    var t := s.pc.next;
    if s.pc.stage < s.cfg.stages && t < |s.tasks| && s.ran > 0 {
      SkipKeepsSpec(s.tasks[t], SkipCause(s, s.pc.early));
      FailuresSame(s.tasks, t, SkipTask(s.tasks[t], SkipCause(s, s.pc.early)), s.ran - 1);
    }
  }

  // ---------- shutting down ----------

  lemma StagesHold(s: State)
    requires TasksOK(s)
    ensures forall t :: 0 <= t < |s.tasks| ==> s.tasks[t].spec.stage < s.cfg.stages
  {
    hide TaskOK;
  }

  lemma SelectInv(s: State, caller: bool)
    requires Inv(s) && Enabled(s, Select(caller))
    ensures Inv(DoSelect(s, caller))
  {
    hide TaskOK, TasksOK, Total, SetupFailure;
    StagesHold(s);
    SameViewsKeep(s, DoSelect(s, caller));
  }

  lemma DrainedTasks(s: State)
    requires Inv(s) && s.pc.Draining? && (AllStartsOver(s) || Escaped(s))
    ensures TasksOK(s.(pc := Turning))
  {
    hide TaskOK, LockOK, Total, SetupFailure;
    var s' := s.(pc := Turning);
    forall t | 0 <= t < |s.tasks|
      ensures ViewOK(ViewOf(s', t)) && Advances(s.tasks[t], ViewOf(s, t), ViewOf(s', t), Escaped(s))
    {
      SameViewAdvances(s.tasks[t], ViewOf(s, t), Escaped(s), s.cfg.errorHandler);
    }
    ViewsKeep(s, s');
  }

  lemma DrainedInv(s: State)
    requires Inv(s) && s.pc.Draining? && (AllStartsOver(s) || Escaped(s))
    ensures Inv(s.(pc := Turning))
  {
    hide TaskOK, TasksOK, Total, SetupFailure;
    DrainedTasks(s);
  }

  lemma TurnInv(s: State)
    requires Inv(s) && s.pc.Turning?
    ensures Inv(DoTurn(s))
  {
    hide TaskOK, TasksOK, Total, SetupFailure, Flat, TimeoutError;
    StagesHold(s);
    SameViewsKeep(s, DoTurn(s));
  }

  lemma CloseInv(s: State)
    requires Inv(s) && s.pc.Closing?
    ensures Inv(DoClose(s))
  {
    hide TaskOK, TasksOK, Total, SetupFailure, Flat, TimeoutError;
    SameViewsKeep(s, DoClose(s));
  }

  lemma BuildInv(s: State)
    requires Inv(s) && s.pc.Building? && s.cause.Some?
    ensures Inv(DoBuild(s))
  {
    hide TaskOK, TasksOK, Total, SetupFailure, ExitCause;
    SameViewsKeep(s, DoBuild(s));
  }

  // ---------- before the stages ----------

  lemma BeforeInv(s: State, a: Action)
    requires Inv(s) && Enabled(s, a)
    requires a.CallRun? || a.ReadRegistry? || a.RunHooks? || a.Publish? || a.ApplyPending?
    ensures Inv(Apply(s, a))
  {
    hide TaskOK, TasksOK, Total, SetupFailure;
    if a.ApplyPending? { NoFailuresYet(s); }
    SameViewsKeep(s, Apply(s, a));
  }

  lemma NoFailuresYet(s: State)
    requires Inv(s) && s.pc.Applying?
    ensures Total(s.tasks, SetupFailure(0)) == multiset{}
  {
    hide TaskOK, LockOK, Total;
    forall t | 0 <= t < |s.tasks|
      ensures SetupFailure(0)(s.tasks[t]) == multiset{}
    {
      TaskHolds(s, t);
      SetupView(s.tasks[t], ViewOf(s, t), Escaped(s), s.cfg.errorHandler);
    }
    TotalEmpty(s.tasks, SetupFailure(0));
  }

  // ---------- callers and time ----------

  lemma EnterInv(s: State, request: Request)
    requires Inv(s) && Enabled(s, Enter(request))
    ensures Inv(Apply(s, Enter(request)))
  {
    hide TaskOK, TasksOK, Total, SetupFailure;
    SameViewsKeep(s, Apply(s, Enter(request)));
  }

  lemma ServeShape(s: State, holder: Holder)
    ensures var s' := Serve(s, holder);
      && s' == s.(reg := s'.reg, ctx := s'.ctx, tasks := s'.tasks)
      && s'.ctx == s.ctx.(startup := s'.ctx.startup, cancels := s'.ctx.cancels)
      && s'.reg.lock == s.reg.lock && s.ctx.cancels <= s'.ctx.cancels
      && s'.tasks == (if holder.request.AddTask? && !holder.sawRunning && holder.request.add.GoodTask? then
                        s.tasks + [NewTask(holder.request.add.spec)] else s.tasks)
  {
  }

  lemma ReleaseInv(s: State)
    requires Inv(s) && s.reg.lock.Some?
    ensures Inv(Apply(s, Release))
  {
    hide TaskOK, Total, SetupFailure, Serve, NewTask;
    var s', holder := Apply(s, Release), s.reg.lock.value;
    ServeShape(s.(reg := s.reg.(lock := None)), holder);
    forall t | 0 <= t < |s'.tasks|
      ensures s'.tasks[t].spec.stage < s'.cfg.stages
      ensures TaskOK(s'.tasks[t], ViewOf(s', t), Escaped(s'), s'.cfg.errorHandler)
    {
      if t < |s.tasks| {
        TaskHolds(s, t);
      } else {
        NewTaskSpec(holder.request.add.spec);
        NewKeeps(holder.request.add.spec, Escaped(s), s.cfg.errorHandler);
      }
    }
  }

  lemma NewTaskSpec(spec: Spec)
    ensures NewTask(spec).spec == spec
  {
  }

  lemma CancelCallerInv(s: State, cause: Err)
    requires Inv(s)
    ensures Inv(DoCancelCaller(s, cause))
  {
    hide TaskOK, TasksOK, Total, SetupFailure;
    SameViewsKeep(s, DoCancelCaller(s, cause));
  }

  lemma EndShape(s: State, cause: Err)
    ensures var s' := EndDown(EndShut(s, cause), cause);
      && s' == s.(ctx := s.ctx.(shut := s'.ctx.shut, down := s'.ctx.down), hist := s'.hist)
      && (s.ctx.shut.Some? ==> s'.ctx.shut == s.ctx.shut)
      && (s'.ctx.shut.Some? ==> s.ctx.shut.Some? || ShutOpen(s.pc))
  {
  }

  lemma CancelBaseInv(s: State, cause: Err)
    requires Inv(s)
    ensures Inv(DoCancelBase(s, cause))
  {
    hide TaskOK, TasksOK, Total, SetupFailure, EndDown, EndShut;
    EndShape(s.(ctx := s.ctx.(base := Some(cause))), cause);
    SameViewsKeep(s, DoCancelBase(s, cause));
  }

  lemma TickShape(s: State)
    ensures var s' := TickClock(s);
      && s' == s.(clock := s.clock.(now := s.clock.now + 1),
                  ctx := s.ctx.(shut := s'.ctx.shut, down := s'.ctx.down), hist := s'.hist)
      && (s.ctx.shut.Some? ==> s'.ctx.shut == s.ctx.shut)
      && (s'.ctx.shut.Some? ==> s.ctx.shut.Some? || ShutOpen(s.pc))
  {
  }

  lemma TickInv(s: State)
    requires Inv(s)
    ensures Inv(TickClock(s))
  {
    hide TaskOK, TasksOK, Total, SetupFailure, TickClock;
    TickShape(s);
    SameViewsKeep(s, TickClock(s));
  }

  // ---------- all moves ----------

  lemma InitInv(cfg: Config)
    requires ValidConfig(cfg)
    ensures Inv(Init(cfg))
  {
  }

  lemma CheckInv(s: State)
    requires Inv(s) && s.pc.Scan? && s.pc.next < |s.tasks|
    ensures Inv(DoCheckNext(s))
  {
    hide PcOK, LockOK, TasksOK, FailuresOK, DoCheckNext;
    CheckShape(s);
    CheckTasks(s);
    CheckRest(s);
  }

  lemma EndScanInv(s: State)
    requires Inv(s) && s.pc.Scan? && s.pc.next == |s.tasks|
    ensures Inv(s.(pc := Await(s.pc.step, s.pc.stage)))
  {
    hide TasksOK, Total, SetupFailure;
    EndScanTasks(s);
  }

  lemma ProceedInv(s: State)
    requires Inv(s) && s.pc.Await? && MayProceed(s, s.pc.step, s.pc.stage)
    ensures Inv(DoProceed(s))
  {
    hide PcOK, LockOK, TasksOK, FailuresOK, MayProceed;
    ProceedTasks(s);
    ProceedRest(s);
  }

  lemma NotifyInv(s: State)
    requires Inv(s) && s.pc.Skipping?
    ensures Inv(DoNotify(s))
  {
    hide PcOK, LockOK, TasksOK, FailuresOK;
    NotifyTasks(s);
    NotifyRest(s);
  }

  lemma StepInv(s: State, a: Action)
    requires Inv(s) && Enabled(s, a)
    ensures Inv(Apply(s, a))
  {
    hide PcOK, LockOK, TasksOK, FailuresOK;
    match a
    case CancelCaller(cause) => CancelCallerInv(s, cause);
    case CancelBase(cause) => CancelBaseInv(s, cause);
    case Tick => TickInv(s);
    case Enter(request) => EnterInv(s, request);
    case TaskReturn(t, step, out) => ReturnInv(s, t, step, out);
    case Release => ReleaseInv(s);
    case Prepare(t, step) => PrepareInv(s, t, step);
    case Begin(t, step) => BeginInv(s, t, step);
    case Settle(t, step) => SettleInv(s, t, step);
    case Report(t, step) => ReportInv(s, t, step);
    case Exit(t, step) => ExitInv(s, t, step);
    case CheckNext => CheckInv(s);
    case EndScan => EndScanInv(s);
    case Proceed => ProceedInv(s);
    case Notify => NotifyInv(s);
    case Select(caller) => SelectInv(s, caller);
    case Drained => DrainedInv(s);
    case Turn => TurnInv(s);
    case Close => CloseInv(s);
    case Build => BuildInv(s);
    case _ => BeforeInv(s, a);
  }

  lemma {:induction false} PathInv(s: State, acts: seq<Action>, s': State)
    requires Inv(s) && Path(s, acts, s')
    ensures Inv(s')
    decreases |acts|
  {
    hide Inv, Apply, Enabled;
    if acts != [] {
      StepInv(s, acts[0]);
      PathInv(Apply(s, acts[0]), acts[1..], s');
    }
  }
}
