/** Who ends the startup context: each reported start step and each failed setup exactly once, and requests. */
module Cancels {
  import opened Errors
  import opened Steps
  import opened Lifecycle
  import opened TaskInvariant
  import opened Totals
  import opened Invariant
  import opened History
  import opened Order

  /** What the step of the task gave to the cancel function when it reported, if it did. */
  function CancelOf(t: nat, task: Task, step: Step): Option<Cancel> {
    match step
    case Setup =>
      if ReportOf(task.setup).Some? then
        Some(Cancel(FromTask(t, Setup), InitializationError(ReportOf(task.setup).value)))
      else None
    case Start =>
      if StartReported(task) then Some(Cancel(FromTask(t, Start), ErrorOrExit(task.start.err))) else None
    case _ => None
  }

  /** What is wrong with a task that is added, if it can be told without adding it. */
  function Fault(add: AddRequest): Option<Err> {
    match add
    case NilTask => Some(ErrNilTask)
    case BadTask(err) => Some(err)
    case BadStage => Some(Wrapped([ErrInvalidStage]))
    case GoodTask(_) => None
  }

  /** The cause with which a request may ask the run to end; the fault of a task may be seen before the run is. */
  predicate Asks(request: Request, cause: Err) {
    match request
    case Shutdown => cause == ErrExit
    case AddInitError(err) => cause == Wrapped([ErrAlreadyRunning, err])
    case AddTask(add) =>
      || cause == Wrapped([ErrAlreadyRunning])
      || (Fault(add).Some? && cause == Wrapped([ErrAlreadyRunning, Fault(add).value]))
  }

  predicate Requested(s: State, c: Cancel) {
    c.origin.FromRequest? && Asks(c.origin.request, c.cause) && s.reg.requests > 0
  }

  /** The cancel was called by who it says, with what that one had to say. */
  predicate CameFrom(s: State, c: Cancel) {
    match c.origin
    case FromTask(t, step) => t < |s.tasks| && CancelOf(t, s.tasks[t], step) == Some(c)
    case FromRequest(_) => Requested(s, c)
  }

  predicate CancelsOK(s: State) {
    && (forall i :: 0 <= i < |s.ctx.cancels| ==> CameFrom(s, s.ctx.cancels[i]))
    && (forall t, step: Step :: 0 <= t < |s.tasks| && CancelOf(t, s.tasks[t], step).Some? ==>
          CancelOf(t, s.tasks[t], step).value in s.ctx.cancels)
    && (forall i, j :: 0 <= i < j < |s.ctx.cancels| && s.ctx.cancels[i].origin == s.ctx.cancels[j].origin ==>
          s.ctx.cancels[i].origin.FromRequest?)
    && (s.reg.pending.Some? ==> Requested(s, s.reg.pending.value))
  }

  // ---------- actions that call no cancel ----------

  /** No cancel was called, and no task reported more than before. */
  ghost predicate SameCancels(s: State, s': State) {
    && s'.ctx.cancels == s.ctx.cancels && s'.reg.requests >= s.reg.requests
    && (s'.reg.pending != s.reg.pending ==> s'.reg.pending.Some? && Requested(s', s'.reg.pending.value))
    && |s.tasks| <= |s'.tasks|
    && (forall t, step: Step :: 0 <= t < |s.tasks| ==> CancelOf(t, s'.tasks[t], step) == CancelOf(t, s.tasks[t], step))
    && (forall t, step: Step :: |s.tasks| <= t < |s'.tasks| ==> CancelOf(t, s'.tasks[t], step) == None)
  }

  lemma SameCancelsKeep(s: State, s': State)
    requires CancelsOK(s) && SameCancels(s, s')
    ensures CancelsOK(s')
  {
    hide CancelOf, Asks;
    forall i | 0 <= i < |s'.ctx.cancels|
      ensures CameFrom(s', s'.ctx.cancels[i])
    {
      assert CameFrom(s, s.ctx.cancels[i]);
    }
  }

  lemma SameReports(t: nat, task: Task, task': Task)
    requires ReportOf(task'.setup) == ReportOf(task.setup) && ReportOf(task'.start) == ReportOf(task.start)
    requires StartReported(task') <==> StartReported(task)
    ensures forall step: Step :: CancelOf(t, task', step) == CancelOf(t, task, step)
  {
  }

  lemma MoveCancels(s: State, a: Action)
    requires CancelsOK(s) && ValidConfig(s.cfg) && Enabled(s, a)
    requires (IsGoroutine(a) || a.TaskReturn?) && !a.Report?
    ensures CancelsOK(Apply(s, a))
  {
    hide Apply, Enabled, CancelsOK, CancelOf;
    var s', t := Apply(s, a), a.task;
    MoveReports(s, a);
    assert PhaseOf(s'.tasks[t], Setup) == s'.tasks[t].setup && PhaseOf(s'.tasks[t], Start) == s'.tasks[t].start;
    assert PhaseOf(s.tasks[t], Setup) == s.tasks[t].setup && PhaseOf(s.tasks[t], Start) == s.tasks[t].start;
    SameReports(t, s.tasks[t], s'.tasks[t]);
    SameCancelsKeep(s, s');
  }

  lemma CheckCancels(s: State)
    requires Inv(s) && CancelsOK(s) && s.pc.Scan? && s.pc.next < |s.tasks|
    ensures CancelsOK(DoCheckNext(s))
  {
    hide Inv, CancelsOK, DoCheckNext, CheckTask, CancelOf;
    var t := s.pc.next;
    CheckShape(s);
    if InStage(s, s.pc.stage, t) {
      CheckNotCalled(s);
      CheckKeepsReports(s.tasks[t], s.pc.step);
      SameReports(t, s.tasks[t], CheckTask(s.tasks[t], s.pc.step));
    }
    SameCancelsKeep(s, DoCheckNext(s));
  }

  lemma CheckKeepsReports(task: Task, step: Step)
    requires PhaseOf(task, step) == Idle
    ensures ReportOf(CheckTask(task, step).setup) == ReportOf(task.setup)
    ensures ReportOf(CheckTask(task, step).start) == ReportOf(task.start)
    ensures StartReported(CheckTask(task, step)) <==> StartReported(task)
  {
  }

  lemma NotifyCancels(s: State)
    requires CancelsOK(s) && s.pc.Skipping?
    ensures CancelsOK(DoNotify(s))
  {
    hide CancelsOK, SkipTask, CancelOf;
    var t := s.pc.next;
    if t < |s.tasks| {
      var task' := SkipTask(s.tasks[t], SkipCause(s, s.pc.early));
      SkipPhases(s.tasks[t], SkipCause(s, s.pc.early));
      assert PhaseOf(task', Setup) == s.tasks[t].setup && PhaseOf(task', Start) == s.tasks[t].start;
      SameReports(t, s.tasks[t], task');
    }
    SameCancelsKeep(s, DoNotify(s));
  }

  lemma QuietCancels(s: State, a: Action)
    requires CancelsOK(s) && ValidConfig(s.cfg) && Enabled(s, a) && IsManager(a)
    requires !a.CheckNext? && !a.Notify? && !a.ApplyPending?
    ensures CancelsOK(Apply(s, a))
  {
    hide CancelsOK, CancelOf, Flat, BuildErrors, ExitCause, TimeoutError, MayProceed, HasStartTask, AllStartsOver;
    SameCancelsKeep(s, Apply(s, a));
  }

  lemma CallerCancels(s: State, a: Action)
    requires CancelsOK(s) && ValidConfig(s.cfg) && Enabled(s, a)
    requires a.CallRun? || a.CancelCaller? || a.CancelBase? || a.Tick? || a.Enter?
    ensures CancelsOK(Apply(s, a))
  {
    hide CancelsOK, CancelOf, TickClock, EndShut, EndDown;
    if a.Tick? { TickShape(s); }
    if a.CancelBase? { EndShape(s.(ctx := s.ctx.(base := Some(a.cause))), a.cause); }
    SameCancelsKeep(s, Apply(s, a));
  }

  // ---------- actions that do ----------

  /** One more cancel was called, by a request or by a step that had not reported. */
  lemma OneMore(s: State, s': State, c: Cancel)
    requires CancelsOK(s) && s'.ctx.cancels == s.ctx.cancels + [c] && s'.reg.requests >= s.reg.requests
    requires s'.reg.pending == s.reg.pending && CameFrom(s', c) && |s'.tasks| == |s.tasks|
    requires forall t, step: Step :: 0 <= t < |s.tasks| && c.origin != FromTask(t, step) ==>
               CancelOf(t, s'.tasks[t], step) == CancelOf(t, s.tasks[t], step)
    requires c.origin.FromTask? && c.origin.task < |s.tasks| ==>
               CancelOf(c.origin.task, s.tasks[c.origin.task], c.origin.step) == None
    ensures CancelsOK(s')
  {
    hide CancelOf, Asks;
    forall i | 0 <= i < |s.ctx.cancels|
      ensures CameFrom(s', s.ctx.cancels[i]) && (s.ctx.cancels[i].origin == c.origin ==> c.origin.FromRequest?)
    {
      assert CameFrom(s, s.ctx.cancels[i]);
    }
    forall t, step: Step | 0 <= t < |s'.tasks| && CancelOf(t, s'.tasks[t], step).Some?
      ensures CancelOf(t, s'.tasks[t], step).value in s'.ctx.cancels
    {
      if c.origin != FromTask(t, step) {
        assert CancelOf(t, s.tasks[t], step).value in s.ctx.cancels;
      }
    }
  }

  lemma ReportCancels(s: State, t: nat, step: Step)
    requires CancelsOK(s) && t < |s.tasks| && PhaseOf(s.tasks[t], step).Settled?
    ensures CancelsOK(DoReport(s, t, step))
  {
    var s', err := DoReport(s, t, step), PhaseOf(s.tasks[t], step).err;
    ReportChanges(s, t, step);
    hide CancelsOK, DoReport, CancelOf, WithPhase;
    var c := CancelOf(t, s'.tasks[t], step);
    if c.Some? {
      OneMore(s, s', c.value);
    } else {
      SameCancelsKeep(s, s');
    }
  }

  /** A report changes what its own step gave to the cancel function, and calls it with just that. */
  lemma ReportChanges(s: State, t: nat, step: Step)
    requires t < |s.tasks| && PhaseOf(s.tasks[t], step).Settled?
    ensures var s' := DoReport(s, t, step);
      && s'.tasks == s.tasks[t := s'.tasks[t]] && s'.reg == s.reg
      && CancelOf(t, s.tasks[t], step) == None
      && (forall u: Step :: u != step ==> CancelOf(t, s'.tasks[t], u) == CancelOf(t, s.tasks[t], u))
      && (CancelOf(t, s'.tasks[t], step).Some? ==> CancelOf(t, s'.tasks[t], step).value.origin == FromTask(t, step))
      && s'.ctx.cancels == s.ctx.cancels + (if CancelOf(t, s'.tasks[t], step).Some? then
                                              [CancelOf(t, s'.tasks[t], step).value] else [])
  {
    hide Flat;
  }

  lemma RequestCancels(s: State, request: Request, cause: Err)
    requires CancelsOK(s) && Asks(request, cause)
    ensures CancelsOK(RequestCancel(s, request, cause))
  {
    hide CancelsOK, CancelOf, Asks;
    if s.ctx.published {
      OneMore(s, RequestCancel(s, request, cause), Cancel(FromRequest(request), cause));
    } else {
      SameCancelsKeep(s, RequestCancel(s, request, cause));
    }
  }

  lemma ServeCancels(s: State, holder: Holder)
    requires CancelsOK(s)
    ensures CancelsOK(Serve(s, holder))
  {
    hide CancelsOK, CancelOf;
    var s', request := Serve(s, holder), holder.request;
    if s'.reg.requests == s.reg.requests {
      NewTaskReportsNothing(s, s', holder);
      SameCancelsKeep(s, s');
    } else {
      match request
      case Shutdown => RequestCancels(s, request, ErrExit);
      case AddInitError(err) => RequestCancels(s, request, Wrapped([ErrAlreadyRunning, err]));
      case AddTask(add) => AddCancels(s, add, holder.sawRunning);
    }
  }

  lemma AddCancels(s: State, add: AddRequest, saw: bool)
    requires CancelsOK(s)
    requires Serve(s, Holder(AddTask(add), saw)).reg.requests != s.reg.requests
    ensures CancelsOK(Serve(s, Holder(AddTask(add), saw)))
  {
    hide CancelsOK, NewTask, RequestCancel;
    var request := AddTask(add);
    if saw {
      RequestCancels(s, request, Wrapped([ErrAlreadyRunning]));
    } else if Fault(add).Some? {
      RequestCancels(s, request, Wrapped([ErrAlreadyRunning, Fault(add).value]));
    }
  }

  lemma NewTaskReportsNothing(s: State, s': State, holder: Holder)
    requires s' == Serve(s, holder) && s'.reg.requests == s.reg.requests
    ensures SameCancels(s, s')
  {
    ServeShape(s, holder);
    NoRequestMade(s, holder);
    hide Serve, NewTask, CancelOf;
    if s'.tasks != s.tasks { NewTaskCancels(|s.tasks|, holder.request.add.spec); }
  }

  lemma NoRequestMade(s: State, holder: Holder)
    requires Serve(s, holder).reg.requests == s.reg.requests
    ensures Serve(s, holder).reg.pending == s.reg.pending && Serve(s, holder).ctx == s.ctx
  {
  }

  lemma NewTaskCancels(t: nat, spec: Spec)
    ensures forall step: Step :: CancelOf(t, NewTask(spec), step) == None
  {
  }

  lemma ApplyPendingCancels(s: State)
    requires CancelsOK(s) && s.pc.Applying?
    ensures CancelsOK(DoApplyPending(s))
  {
    hide CancelOf, Asks;
    if s.reg.pending.Some? {
      OneMore(s, DoApplyPending(s), s.reg.pending.value);
    } else {
      SameCancelsKeep(s, DoApplyPending(s));
    }
  }

  lemma StepCancelsOK(s: State, a: Action)
    requires Inv(s) && ValidConfig(s.cfg) && CancelsOK(s) && Enabled(s, a)
    ensures CancelsOK(Apply(s, a))
  {
    hide Inv, CancelsOK;
    if a.Report? { ReportCancels(s, a.task, a.step); }
    else if a.CheckNext? { CheckCancels(s); }
    else if a.Notify? { NotifyCancels(s); }
    else if a.ApplyPending? { ApplyPendingCancels(s); }
    else if a.Release? { UnlockedCancels(s); ServeCancels(s.(reg := s.reg.(lock := None)), s.reg.lock.value); }
    else {
      hide Apply, Enabled;
      if IsManager(a) { QuietCancels(s, a); }
      else if IsGoroutine(a) || a.TaskReturn? { MoveCancels(s, a); }
      else { CallerCancels(s, a); }
    }
  }

  lemma UnlockedCancels(s: State)
    requires CancelsOK(s)
    ensures CancelsOK(s.(reg := s.reg.(lock := None)))
  {
    hide CancelOf, Asks;
    SameCancelsKeep(s, s.(reg := s.reg.(lock := None)));
  }
}
