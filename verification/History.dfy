/** The order in which things happen in a run: nothing twice, and everything in its place. */
module History {
  import opened Errors
  import opened Steps
  import opened Lifecycle
  import opened TaskInvariant
  import opened Totals
  import opened Invariant

  // ---------- the history tells what happened ----------

  /** Whether the state shows that the event took place. */
  predicate Happened(s: State, e: Event) {
    match e
    case CheckE(t, step) => t < |s.tasks| && Progress(ViewOf(s, t), step) >= 1
    case CallE(t, step) => t < |s.tasks| && Called(PhaseOf(s.tasks[t], step))
    case ReturnE(t, step) => t < |s.tasks| && Over(PhaseOf(s.tasks[t], step))
    case SkipE(t) => t < |s.tasks| && s.tasks[t].spec.skippable && ViewOf(s, t).skipped
    case ShutE => s.ctx.shut.Some?
  }

  ghost predicate Linked(s: State) {
    forall e :: e in s.hist <==> Happened(s, e)
  }

  /** What an action adds to the history. */
  function NewEvent(s: State, a: Action): Option<Event>
    requires ValidConfig(s.cfg) && Enabled(s, a)
  {
    match a
    case Begin(t, step) => if step in s.tasks[t].has then Some(CallE(t, step)) else None
    case TaskReturn(t, step, _) => Some(ReturnE(t, step))
    case CheckNext => if InStage(s, s.pc.stage, s.pc.next) then Some(CheckE(s.pc.next, s.pc.step)) else None
    case Notify =>
      if s.pc.stage < s.cfg.stages && InStage(s, s.pc.stage, s.pc.next) && s.tasks[s.pc.next].spec.skippable then
        Some(SkipE(s.pc.next))
      else None
    case Tick => if s.ctx.shut == None && TickClock(s).ctx.shut.Some? then Some(ShutE) else None
    case CancelBase(cause) => if s.ctx.shut == None && DoCancelBase(s, cause).ctx.shut.Some? then Some(ShutE) else None
    case Select(_) => if s.ctx.base.Some? then Some(ShutE) else None
    case _ => None
  }

  function Grown(hist: seq<Event>, e: Option<Event>): seq<Event> {
    if e.Some? then hist + [e.value] else hist
  }

  predicate SameProgress(v: View, v': View) {
    && (v'.setup >= 1 <==> v.setup >= 1) && (v'.start >= 1 <==> v.start >= 1)
    && (v'.stop >= 1 <==> v.stop >= 1) && (v'.down >= 1 <==> v.down >= 1) && v'.skipped == v.skipped
  }

  /** The action makes exactly its event happen, and it had not happened before. */
  ghost predicate Makes(s: State, s': State, e: Option<Event>) {
    && s'.hist == Grown(s.hist, e)
    && (e.Some? ==> !Happened(s, e.value))
    && (forall d :: Happened(s', d) <==> Happened(s, d) || e == Some(d))
  }

  // ---------- every action makes its event happen ----------

  /** A step of one task went from phase `p` to phase `p'`, and nothing else moved. */
  ghost predicate PhaseMove(s: State, s': State, t: nat, step: Step, p': Phase) {
    && SameManager(s, s') && t < |s.tasks| == |s'.tasks| && s'.tasks == s.tasks[t := s'.tasks[t]]
    && s'.tasks[t].spec == s.tasks[t].spec
    && forall u :: PhaseOf(s'.tasks[t], u) == if u == step then p' else PhaseOf(s.tasks[t], u)
  }

  lemma PhaseMoveMakes(s: State, s': State, t: nat, step: Step, p': Phase, e: Option<Event>)
    requires PhaseMove(s, s', t, step, p') && s'.hist == Grown(s.hist, e)
    requires e == if Called(p') && !Called(PhaseOf(s.tasks[t], step)) then Some(CallE(t, step))
                  else if Over(p') && !Over(PhaseOf(s.tasks[t], step)) then Some(ReturnE(t, step))
                  else None
    requires Called(PhaseOf(s.tasks[t], step)) ==> Called(p')
    requires Over(PhaseOf(s.tasks[t], step)) ==> Over(p')
    requires Over(p') ==> Called(PhaseOf(s.tasks[t], step))
    ensures Makes(s, s', e)
  {
    hide ViewAt;
    assert forall u :: 0 <= u < |s.tasks| ==> ViewOf(s', u) == ViewOf(s, u);
    forall d
      ensures Happened(s', d) <==> Happened(s, d) || e == Some(d)
    {
      if (d.CallE? || d.ReturnE?) && d.task < |s.tasks| && d.task != t {
        assert s'.tasks[d.task] == s.tasks[d.task];
      }
    }
  }

  /** The two tasks have the same steps and options, and the same data and future. */
  predicate SameParts(task: Task, task': Task) {
    && task'.has == task.has && task'.ssm == task.ssm && task'.data == task.data && task'.cell == task.cell
    && task'.told == task.told
  }

  lemma PreparePhases(task: Task, step: Step)
    ensures PrepareTask(task, step).spec == task.spec && SameParts(task, PrepareTask(task, step))
    ensures forall u :: PhaseOf(PrepareTask(task, step), u) == if u == step then Ready else PhaseOf(task, u)
  {
  }

  lemma BeginPhases(task: Task, step: Step)
    ensures BeginTask(task, step).spec == task.spec && SameParts(task, BeginTask(task, step))
    ensures forall u :: PhaseOf(BeginTask(task, step), u)
              == if u == step then if step in task.has then Calling else Quit else PhaseOf(task, u)
  {
  }

  lemma ReturnPhases(task: Task, step: Step, out: Outcome)
    ensures ReturnTask(task, step, out).spec == task.spec
    ensures ReturnTask(task, step, out).has == out.has && ReturnTask(task, step, out).ssm == out.ssm
    ensures ReturnTask(task, step, out).told == task.told
    ensures task.data.Some? ==> ReturnTask(task, step, out).data == task.data
    ensures step != Setup ==>
              ReturnTask(task, step, out).cell == task.cell && ReturnTask(task, step, out).data == task.data
    ensures forall u :: PhaseOf(ReturnTask(task, step, out), u)
              == if u == step then Returned(out.err) else PhaseOf(task, u)
  {
  }

  lemma SettlePhases(task: Task, step: Step)
    requires PhaseOf(task, step).Returned?
    ensures SettleTask(task, step).spec == task.spec && SameParts(task, SettleTask(task, step))
    ensures forall u :: PhaseOf(SettleTask(task, step), u)
              == if u == step then Settled(PhaseOf(task, step).err) else PhaseOf(task, u)
  {
  }

  lemma PhasePhases(task: Task, step: Step, p: Phase)
    ensures WithPhase(task, step, p).spec == task.spec && SameParts(task, WithPhase(task, step, p))
    ensures forall u :: PhaseOf(WithPhase(task, step, p), u) == if u == step then p else PhaseOf(task, u)
  {
  }

  /** The phase that a move of a goroutine, or the return of a call, leads to; all but the report. */
  function NextPhase(task: Task, a: Action): Phase
    requires (IsGoroutine(a) || a.TaskReturn?) && !a.Report?
    requires a.Settle? ==> PhaseOf(task, a.step).Returned?
    requires a.Exit? ==> PhaseOf(task, a.step).Reported?
  {
    match a
    case Prepare(_, _) => Ready
    case Begin(_, step) => if step in task.has then Calling else Quit
    case TaskReturn(_, _, out) => Returned(out.err)
    case Settle(_, step) => Settled(PhaseOf(task, step).err)
    case Exit(_, step) => Finished(PhaseOf(task, step).err)
  }

  /** Such a move changes one step of one task, and adds at most one event to the history. */
  lemma MoveShape(s: State, a: Action)
    requires ValidConfig(s.cfg) && Enabled(s, a) && (IsGoroutine(a) || a.TaskReturn?) && !a.Report?
    ensures a.task < |s.tasks| == |Apply(s, a).tasks|
    ensures a.Settle? ==> PhaseOf(s.tasks[a.task], a.step).Returned?
    ensures a.Exit? ==> PhaseOf(s.tasks[a.task], a.step).Reported?
    ensures var s', t := Apply(s, a), a.task;
      && s' == s.(tasks := s.tasks[t := s'.tasks[t]], hist := s'.hist)
      && s'.tasks[t].spec == s.tasks[t].spec && s'.tasks[t].told == s.tasks[t].told
      && (!a.TaskReturn? ==> SameParts(s.tasks[t], s'.tasks[t]))
      && (a.TaskReturn? ==> s'.tasks[t].has == a.out.has && s'.tasks[t].ssm == a.out.ssm)
      && (s.tasks[t].data.Some? ==> s'.tasks[t].data == s.tasks[t].data)
      && (a.TaskReturn? && a.step != Setup ==>
            s'.tasks[t].cell == s.tasks[t].cell && s'.tasks[t].data == s.tasks[t].data)
      && forall u :: PhaseOf(s'.tasks[t], u)
                     == if u == a.step then NextPhase(s.tasks[t], a) else PhaseOf(s.tasks[t], u)
  {
    hide PrepareTask, BeginTask, ReturnTask, SettleTask, WithPhase, Plausible, PhaseOf, SameParts;
    var task := s.tasks[a.task];
    match a
    case Prepare(_, step) => PreparePhases(task, step);
    case Begin(_, step) => BeginPhases(task, step);
    case TaskReturn(_, step, out) => ReturnPhases(task, step, out);
    case Settle(_, step) => SettlePhases(task, step);
    case Exit(_, step) => PhasePhases(task, step, Finished(PhaseOf(task, step).err));
  }

  /** What any move of a goroutine, or the return of a call, leaves of its task. */
  lemma MoveParts(s: State, a: Action)
    requires ValidConfig(s.cfg) && Enabled(s, a) && (IsGoroutine(a) || a.TaskReturn?)
    ensures a.task < |s.tasks| == |Apply(s, a).tasks|
    ensures var task, task' := s.tasks[a.task], Apply(s, a).tasks[a.task];
      && (!a.TaskReturn? ==> SameParts(task, task'))
      && (a.TaskReturn? ==> task'.has == a.out.has && task'.ssm == a.out.ssm && Plausible(s.cfg, task, a.step, a.out))
      && (task.data.Some? ==> task'.data == task.data)
      && (a.TaskReturn? && a.step != Setup ==> task'.cell == task.cell) && task'.told == task.told
      && (PhaseOf(task', Start) == Idle <==> PhaseOf(task, Start) == Idle)
      && (PhaseOf(task', Stop) == Idle <==> PhaseOf(task, Stop) == Idle)
  {
    if a.Report? {
      hide WithPhase, DoReport;
      ReportShape(s, a.task, a.step);
      PhasePhases(s.tasks[a.task], a.step, Reported(PhaseOf(s.tasks[a.task], a.step).err));
    } else {
      hide Apply, Plausible, PhaseOf;
      MoveShape(s, a);
      hide SameParts;
    }
  }

  /** What callers and time leave alone. */
  lemma CallerShape(s: State, a: Action)
    requires ValidConfig(s.cfg) && Enabled(s, a) && !IsGoroutine(a) && !a.TaskReturn? && !IsManager(a)
    ensures var s' := Apply(s, a);
      && s' == s.(pc := s'.pc, tasks := s'.tasks, reg := s'.reg, ctx := s'.ctx, clock := s'.clock, hist := s'.hist)
      && (if a.CallRun? then s.pc.Fresh? && s'.pc.Claimed? else s'.pc == s.pc)
      && s.tasks <= s'.tasks && s.ctx.cancels <= s'.ctx.cancels
      && s'.ctx.published == s.ctx.published
  {
    hide TickClock, EndShut, EndDown, Serve;
    if a.Tick? { TickShape(s); }
    if a.CancelBase? { EndShape(s.(ctx := s.ctx.(base := Some(a.cause))), a.cause); }
    if a.Release? { ServeShape(s.(reg := s.reg.(lock := None)), s.reg.lock.value); }
  }

  lemma ReportKeepsRest(s: State, t: nat, step: Step)
    requires t < |s.tasks| && PhaseOf(s.tasks[t], step).Settled?
    ensures var s' := DoReport(s, t, step);
      && s' == s.(tasks := s'.tasks, ctx := s'.ctx, setupErrs := s'.setupErrs, errs := s'.errs)
      && |s'.tasks| == |s.tasks| && s.ctx.cancels <= s'.ctx.cancels && s'.ctx.published == s.ctx.published
  {
    hide Flat, WithPhase;
  }

  /** What everyone but the manager leaves alone. */
  lemma BystanderShape(s: State, a: Action)
    requires ValidConfig(s.cfg) && Enabled(s, a) && !IsManager(a)
    ensures var s' := Apply(s, a);
      && s' == s.(pc := s'.pc, tasks := s'.tasks, reg := s'.reg, ctx := s'.ctx, clock := s'.clock, hist := s'.hist,
                  setupErrs := s'.setupErrs, errs := s'.errs)
      && (if a.CallRun? then s.pc.Fresh? && s'.pc.Claimed? else s'.pc == s.pc)
      && |s.tasks| <= |s'.tasks| && s.ctx.cancels <= s'.ctx.cancels && s'.ctx.published == s.ctx.published
  {
    if a.Report? {
      hide DoReport;
      ReportKeepsRest(s, a.task, a.step);
    } else {
      hide Apply, Enabled;
      if IsGoroutine(a) || a.TaskReturn? { MoveShape(s, a); } else { CallerShape(s, a); }
    }
  }

  /** The manager touches tasks only when it checks or notifies them. */
  lemma ManagerKeepsTasks(s: State, a: Action)
    requires ValidConfig(s.cfg) && Enabled(s, a) && IsManager(a) && !a.CheckNext? && !a.Notify?
    ensures Apply(s, a).tasks == s.tasks
  {
    hide Flat, BuildErrors, ExitCause, TimeoutError, MayProceed, HasStartTask, AllStartsOver;
  }

  /** The moves before the first stage. */
  predicate Starts(a: Action) { a.ReadRegistry? || a.RunHooks? || a.Publish? || a.ApplyPending? }

  lemma StartsShape(s: State, a: Action)
    requires ValidConfig(s.cfg) && Enabled(s, a) && Starts(a)
    ensures Before(s.pc) && !EarlyExit(s.pc) && s.ctx.cancels <= Apply(s, a).ctx.cancels
  {
  }

  lemma CheckedShape(s: State)
    requires Inv(s) && ValidConfig(s.cfg) && Enabled(s, CheckNext)
    ensures var s' := Apply(s, CheckNext);
      s.pc.Scan? && s' == s.(tasks := s'.tasks, hist := s'.hist, pc := Scan(s.pc.step, s.pc.stage, s.pc.next + 1))
  {
    hide Inv, DoCheckNext;
    CheckShape(s);
  }

  /** The errors and the cause are decided while the manager goes on. */
  predicate GoesOn(s: State, s': State) {
    && s'.ctx.cancels == s.ctx.cancels && s'.ctx.published == s.ctx.published
    && (s'.cause == s.cause || s.pc.Selecting?) && (s'.failed == s.failed || Starting(s.pc))
    && (EarlyExit(s.pc) <==> EarlyExit(s'.pc)) && (Past(s.pc) ==> Past(s'.pc))
    && (ShutOpen(s.pc) ==> ShutOpen(s'.pc) || s'.pc == Done(false)) && !s.pc.Done?
  }

  lemma ProceedShape(s: State)
    requires ValidConfig(s.cfg) && Enabled(s, Proceed)
    ensures GoesOn(s, Apply(s, Proceed))
  {
    hide MayProceed, BuildErrors;
  }

  lemma NotifyShape(s: State)
    requires ValidConfig(s.cfg) && Enabled(s, Notify)
    ensures GoesOn(s, Apply(s, Notify))
  {
    hide SkipTask;
  }

  lemma EndingShape(s: State, a: Action)
    requires ValidConfig(s.cfg) && Enabled(s, a)
    requires a.EndScan? || a.Select? || a.Drained? || a.Turn? || a.Close? || a.Build?
    ensures GoesOn(s, Apply(s, a))
  {
    hide Flat, BuildErrors, ExitCause, TimeoutError, AllStartsOver;
  }

  lemma ManagerShape(s: State, a: Action)
    requires ValidConfig(s.cfg) && Enabled(s, a) && IsManager(a) && !Starts(a) && !a.CheckNext?
    ensures GoesOn(s, Apply(s, a))
  {
    hide GoesOn, Apply, Enabled, ValidConfig;
    if a.Proceed? { ProceedShape(s); } else if a.Notify? { NotifyShape(s); } else { EndingShape(s, a); }
  }

  lemma NextReports(s: State, a: Action)
    requires ValidConfig(s.cfg) && Enabled(s, a) && (IsGoroutine(a) || a.TaskReturn?) && !a.Report?
    requires a.task < |s.tasks|
    requires a.Settle? ==> PhaseOf(s.tasks[a.task], a.step).Returned?
    requires a.Exit? ==> PhaseOf(s.tasks[a.task], a.step).Reported?
    ensures var p, p' := PhaseOf(s.tasks[a.task], a.step), NextPhase(s.tasks[a.task], a);
      && ReportOf(p') == ReportOf(p) && (p'.Reported? || p'.Finished? <==> p.Reported? || p.Finished?)
  {
    hide Plausible, PhaseOf;
  }

  /** Such a move reports nothing. */
  lemma MoveReports(s: State, a: Action)
    requires ValidConfig(s.cfg) && Enabled(s, a) && (IsGoroutine(a) || a.TaskReturn?) && !a.Report?
    ensures a.task < |s.tasks| == |Apply(s, a).tasks|
    ensures var s', t := Apply(s, a), a.task;
      && s' == s.(tasks := s.tasks[t := s'.tasks[t]], hist := s'.hist)
      && (forall u :: ReportOf(PhaseOf(s'.tasks[t], u)) == ReportOf(PhaseOf(s.tasks[t], u)))
      && ReportOf(s'.tasks[t].stop) == ReportOf(s.tasks[t].stop)
      && ReportOf(s'.tasks[t].teardown) == ReportOf(s.tasks[t].teardown)
      && (StartReported(s'.tasks[t]) <==> StartReported(s.tasks[t]))
  {
    hide Apply, Enabled;
    MoveShape(s, a);
    NextReports(s, a);
    var task, task' := s.tasks[a.task], Apply(s, a).tasks[a.task];
    assert PhaseOf(task', Start) == task'.start && PhaseOf(task', Stop) == task'.stop;
    assert PhaseOf(task', Teardown) == task'.teardown;
    hide NextPhase;
  }

  lemma PrepareMakes(s: State, t: nat, step: Step)
    requires InPhase(s, t, step, Launched)
    ensures Makes(s, SetTask(s, t, PrepareTask(s.tasks[t], step)), None)
  {
    hide Makes, PrepareTask;
    PreparePhases(s.tasks[t], step);
    PhaseMoveMakes(s, SetTask(s, t, PrepareTask(s.tasks[t], step)), t, step, Ready, None);
  }

  lemma BeginMakes(s: State, t: nat, step: Step)
    requires InPhase(s, t, step, Ready)
    ensures Makes(s, DoBegin(s, t, step), if step in s.tasks[t].has then Some(CallE(t, step)) else None)
  {
    hide Makes, BeginTask;
    var has := step in s.tasks[t].has;
    BeginPhases(s.tasks[t], step);
    PhaseMoveMakes(s, DoBegin(s, t, step), t, step, if has then Calling else Quit,
                   if has then Some(CallE(t, step)) else None);
  }

  lemma ReturnMakes(s: State, t: nat, step: Step, out: Outcome)
    requires InPhase(s, t, step, Calling)
    ensures Makes(s, DoReturn(s, t, step, out), Some(ReturnE(t, step)))
  {
    hide Makes, ReturnTask;
    ReturnPhases(s.tasks[t], step, out);
    PhaseMoveMakes(s, DoReturn(s, t, step, out), t, step, Returned(out.err), Some(ReturnE(t, step)));
  }

  lemma SettleMakes(s: State, t: nat, step: Step)
    requires t < |s.tasks| && PhaseOf(s.tasks[t], step).Returned?
    ensures Makes(s, SetTask(s, t, SettleTask(s.tasks[t], step)), None)
  {
    hide Makes, SettleTask;
    SettlePhases(s.tasks[t], step);
    PhaseMoveMakes(s, SetTask(s, t, SettleTask(s.tasks[t], step)), t, step,
                   Settled(PhaseOf(s.tasks[t], step).err), None);
  }

  lemma ReportMakes(s: State, t: nat, step: Step)
    requires t < |s.tasks| && PhaseOf(s.tasks[t], step).Settled?
    ensures Makes(s, DoReport(s, t, step), None)
  {
    var err := PhaseOf(s.tasks[t], step).err;
    assert DoReport(s, t, step).hist == s.hist;
    hide Makes, WithPhase, DoReport;
    ReportShape(s, t, step);
    PhasePhases(s.tasks[t], step, Reported(err));
    PhaseMoveMakes(s, DoReport(s, t, step), t, step, Reported(err), None);
  }

  lemma ExitMakes(s: State, t: nat, step: Step)
    requires t < |s.tasks| && PhaseOf(s.tasks[t], step).Reported?
    ensures Makes(s, DoExit(s, t, step), None)
  {
    hide Makes, WithPhase;
    var err := PhaseOf(s.tasks[t], step).err;
    PhasePhases(s.tasks[t], step, Finished(err));
    PhaseMoveMakes(s, DoExit(s, t, step), t, step, Finished(err), None);
  }

  // ---------- the manager ----------

  predicate InRange(s: State) { forall t :: 0 <= t < |s.tasks| ==> s.tasks[t].spec.stage < s.cfg.stages }

  /** The manager went on without checking or skipping a task, and the shutdown context may have ended. */
  lemma PcMoveMakes(s: State, s': State, e: Option<Event>)
    requires s'.tasks == s.tasks && s'.hist == Grown(s.hist, e)
    requires e == if s.ctx.shut == None && s'.ctx.shut.Some? then Some(ShutE) else None
    requires s.ctx.shut.Some? ==> s'.ctx.shut.Some?
    requires forall t :: 0 <= t < |s.tasks| ==> SameProgress(ViewOf(s, t), ViewOf(s', t))
    ensures Makes(s, s', e)
  {
    hide ViewAt;
    forall d
      ensures Happened(s', d) <==> Happened(s, d) || e == Some(d)
    {
      if (d.CheckE? || d.SkipE?) && d.task < |s.tasks| {
        assert SameProgress(ViewOf(s, d.task), ViewOf(s', d.task));
      }
    }
  }

  lemma BeforeMakes(s: State, a: Action)
    requires PcOK(s) && ValidConfig(s.cfg) && Enabled(s, a)
    requires a.CallRun? || a.ReadRegistry? || a.RunHooks? || a.Publish? || a.ApplyPending?
    ensures Makes(s, Apply(s, a), None)
  {
    hide Makes;
    PcMoveMakes(s, Apply(s, a), None);
  }

  lemma EndScanMakes(s: State)
    requires PcOK(s) && s.pc.Scan? && s.pc.next == |s.tasks|
    ensures Makes(s, s.(pc := Await(s.pc.step, s.pc.stage)), None)
  {
    hide Makes;
    PcMoveMakes(s, s.(pc := Await(s.pc.step, s.pc.stage)), None);
  }

  lemma ProceedMakes(s: State)
    requires PcOK(s) && InRange(s) && s.pc.Await? && (s.pc.step == Start ==> s.setupErrs == [])
    requires ValidConfig(s.cfg)
    ensures Makes(s, DoProceed(s), None)
  {
    hide Makes;
    PcMoveMakes(s, DoProceed(s), None);
  }

  lemma UncheckedIsIdle(task: Task, step: Step, v: View, esc: bool, eh: ErrorHandler)
    requires TaskOK(task, v, esc, eh) && Progress(v, step) == 0
    ensures PhaseOf(task, step) == Idle
  {
    match step { case Setup => case Start => case Stop => case Teardown => }
  }

  /** The code of no step was entered or left. */
  predicate SameCalls(task: Task, task': Task) {
    forall u ::
      && Called(PhaseOf(task', u)) == Called(PhaseOf(task, u))
      && Over(PhaseOf(task', u)) == Over(PhaseOf(task, u))
  }

  lemma CheckPhases(task: Task, step: Step)
    requires PhaseOf(task, step) == Idle
    ensures CheckTask(task, step).spec == task.spec && SameCalls(task, CheckTask(task, step))
  {
  }

  /** The view of task `t` says that its step was checked, the others say what they did. */
  predicate ViewsChecked(s: State, s': State, t: nat, step: Step) {
    && t < |s.tasks| == |s'.tasks|
    && Progress(ViewOf(s, t), step) == 0 && ViewOf(s', t) == AfterCheck(ViewOf(s, t), step)
    && forall u :: 0 <= u < |s.tasks| && u != t ==> ViewOf(s', u) == ViewOf(s, u)
  }

  /** One task was checked: no code of any task was entered or left. */
  lemma CheckedMakes(s: State, s': State, t: nat, step: Step)
    requires ViewsChecked(s, s', t, step) && s'.tasks == s.tasks[t := s'.tasks[t]] && s'.ctx == s.ctx
    requires s'.tasks[t].spec == s.tasks[t].spec && s'.hist == s.hist + [CheckE(t, step)]
    requires SameCalls(s.tasks[t], s'.tasks[t])
    ensures Makes(s, s', Some(CheckE(t, step)))
  {
    hide ViewOf, Called, Over, PhaseOf;
    forall d
      ensures Happened(s', d) <==> Happened(s, d) || CheckE(t, step) == d
    {
      if !d.ShutE? && d.task < |s.tasks| && d.task != t {
        assert s'.tasks[d.task] == s.tasks[d.task];
      }
    }
  }

  lemma CheckViews(s: State, s': State)
    requires PcOK(s) && s.pc.Scan? && s.pc.next < |s.tasks| && InStage(s, s.pc.stage, s.pc.next)
    requires |s'.tasks| == |s.tasks| && forall u :: 0 <= u < |s.tasks| ==> s'.tasks[u].spec == s.tasks[u].spec
    requires s' == s.(tasks := s'.tasks, hist := s'.hist, pc := Scan(s.pc.step, s.pc.stage, s.pc.next + 1))
    ensures ViewsChecked(s, s', s.pc.next, s.pc.step)
  {
    hide PcOK, ViewAt;
    CheckView(s);
    forall u | 0 <= u < |s.tasks| && u != s.pc.next
      ensures ViewOf(s', u) == ViewOf(s, u)
    {
      OtherViewAt(s.pc.step, s.pc.stage, s.pc.next, s.ran, Started(s), s.tasks[u].spec.stage, u);
    }
  }

  lemma CheckHist(s: State)
    requires Inv(s) && s.pc.Scan? && s.pc.next < |s.tasks| && InStage(s, s.pc.stage, s.pc.next)
    ensures DoCheckNext(s).hist == s.hist + [CheckE(s.pc.next, s.pc.step)]
  {
    hide Inv, CheckTask, InvalidOrder;
    CheckNeverInvalid(s);
  }

  lemma CheckNotCalled(s: State)
    requires Inv(s) && s.pc.Scan? && InStage(s, s.pc.stage, s.pc.next)
    ensures PhaseOf(s.tasks[s.pc.next], s.pc.step) == Idle
  {
    hide TaskOK, ViewOf, FailuresOK, LockOK;
    CheckView(s);
    TaskHolds(s, s.pc.next);
    UncheckedIsIdle(s.tasks[s.pc.next], s.pc.step, ViewOf(s, s.pc.next), Escaped(s), s.cfg.errorHandler);
  }

  lemma CheckMakes(s: State)
    requires Inv(s) && s.pc.Scan? && s.pc.next < |s.tasks| && InStage(s, s.pc.stage, s.pc.next)
    ensures Makes(s, DoCheckNext(s), Some(CheckE(s.pc.next, s.pc.step)))
  {
    assert PcOK(s) by { hide TasksOK; }
    hide Inv, PcOK, DoCheckNext, CheckTask, ViewOf, PhaseOf, Makes, ViewsChecked, SameCalls;
    CheckShape(s);
    CheckHist(s);
    CheckNotCalled(s);
    CheckPhases(s.tasks[s.pc.next], s.pc.step);
    CheckViews(s, DoCheckNext(s));
    CheckedMakes(s, DoCheckNext(s), s.pc.next, s.pc.step);
  }

  lemma CheckNothing(s: State)
    requires Inv(s) && s.pc.Scan? && s.pc.next < |s.tasks| && !InStage(s, s.pc.stage, s.pc.next)
    ensures Makes(s, DoCheckNext(s), None)
  {
    hide TaskOK, LockOK, FailuresOK, CheckTask, ViewAt, Makes;
    var s' := DoCheckNext(s);
    forall u | 0 <= u < |s.tasks|
      ensures SameProgress(ViewOf(s, u), ViewOf(s', u))
    {
      OtherViewAt(s.pc.step, s.pc.stage, s.pc.next, s.ran, Started(s), s.tasks[u].spec.stage, u);
    }
    PcMoveMakes(s, s', None);
  }

  lemma SkipPhases(task: Task, cause: Option<Err>)
    ensures SkipTask(task, cause).spec == task.spec
    ensures forall u :: PhaseOf(SkipTask(task, cause), u) == PhaseOf(task, u)
  {
  }

  lemma SkipMakes(s: State)
    requires PcOK(s) && s.pc.Skipping? && s.pc.stage < s.cfg.stages && s.pc.next < |s.tasks|
    ensures Makes(s, DoNotify(s),
                  if InStage(s, s.pc.stage, s.pc.next) && s.tasks[s.pc.next].spec.skippable then
                    Some(SkipE(s.pc.next)) else None)
  {
    hide ViewAt, SkipTask;
    var s', t := DoNotify(s), s.pc.next;
    SkipPhases(s.tasks[t], SkipCause(s, s.pc.early));
    assert !ViewAt(s.pc, s.ran, Started(s), s.pc.stage, t).skipped by { UnskippedAt(s.pc, s.ran, Started(s), t); }
    forall u | 0 <= u < |s.tasks|
      ensures ViewOf(s', u) == if u == t && InStage(s, s.pc.stage, t) then AfterSkip(ViewOf(s, u)) else ViewOf(s, u)
    {
      SkipViewAt(s.pc.stage, t, s.pc.early, s.ran, Started(s), s.tasks[u].spec.stage, u);
    }
  }

  lemma UnskippedAt(pc: PC, ran: nat, started: nat, t: nat)
    requires pc.Skipping? && pc.next == t
    ensures !ViewAt(pc, ran, started, pc.stage, t).skipped
  {
  }

  lemma NotifyMakes(s: State)
    requires PcOK(s) && InRange(s) && s.pc.Skipping?
    ensures Makes(s, DoNotify(s),
                  if s.pc.stage < s.cfg.stages && InStage(s, s.pc.stage, s.pc.next) &&
                     s.tasks[s.pc.next].spec.skippable then Some(SkipE(s.pc.next)) else None)
  {
    hide Makes;
    if s.pc.stage < s.cfg.stages && s.pc.next < |s.tasks| {
      SkipMakes(s);
    } else {
      PcMoveMakes(s, DoNotify(s), None);
    }
  }

  lemma SelectMakes(s: State, caller: bool)
    requires PcOK(s) && InRange(s) && ValidConfig(s.cfg) && s.pc.Selecting?
    ensures Makes(s, DoSelect(s, caller), if s.ctx.base.Some? then Some(ShutE) else None)
  {
    hide Makes;
    PcMoveMakes(s, DoSelect(s, caller), if s.ctx.base.Some? then Some(ShutE) else None);
  }

  lemma DrainedMakes(s: State)
    requires s.pc.Draining?
    ensures Makes(s, s.(pc := Turning), None)
  {
    hide Makes;
    PcMoveMakes(s, s.(pc := Turning), None);
  }

  lemma TurnMakes(s: State)
    requires InRange(s) && ValidConfig(s.cfg) && s.pc.Turning?
    ensures Makes(s, DoTurn(s), None)
  {
    hide Makes, Flat, TimeoutError;
    PcMoveMakes(s, DoTurn(s), None);
  }

  lemma CloseMakes(s: State)
    requires s.pc.Closing? || (s.pc.Building? && s.cause.Some?)
    ensures s.pc.Closing? ==> Makes(s, DoClose(s), None)
    ensures s.pc.Building? ==> Makes(s, DoBuild(s), None)
  {
    hide Makes, Flat, TimeoutError, ExitCause, BuildErrors;
    if s.pc.Closing? { PcMoveMakes(s, DoClose(s), None); } else { PcMoveMakes(s, DoBuild(s), None); }
  }

  lemma EndMakes(s: State, cause: Err)
    ensures EndDown(EndShut(s, cause), cause).hist
         == Grown(s.hist, if s.ctx.shut == None && EndDown(EndShut(s, cause), cause).ctx.shut.Some? then Some(ShutE)
                          else None)
  {
  }

  lemma TickHist(s: State)
    ensures TickClock(s).hist
         == Grown(s.hist, if s.ctx.shut == None && TickClock(s).ctx.shut.Some? then Some(ShutE) else None)
  {
  }

  lemma EnvironmentMakes(s: State, a: Action)
    requires ValidConfig(s.cfg) && Enabled(s, a)
    requires a.CancelCaller? || a.CancelBase? || a.Tick? || a.Enter?
    ensures Makes(s, Apply(s, a), NewEvent(s, a))
  {
    hide Makes, TickClock, EndDown, EndShut, ViewAt;
    if a.Tick? { TickShape(s); TickHist(s); }
    if a.CancelBase? {
      EndShape(s.(ctx := s.ctx.(base := Some(a.cause))), a.cause);
      EndMakes(s.(ctx := s.ctx.(base := Some(a.cause))), a.cause);
    }
    PcMoveMakes(s, Apply(s, a), NewEvent(s, a));
  }

  /** A task was added, for which nothing has happened. */
  lemma AddedMakes(s: State, s': State, task: Task)
    requires s'.tasks == s.tasks + [task] && s'.pc == s.pc && s'.ran == s.ran && s'.failed == s.failed
    requires s'.ctx.shut == s.ctx.shut && s'.hist == s.hist
    requires forall step :: PhaseOf(task, step) == Idle
    requires s.pc.Fresh? || s.pc.Claimed?
    ensures Makes(s, s', None)
  {
    forall t | 0 <= t < |s.tasks|
      ensures ViewOf(s', t) == ViewOf(s, t) && s'.tasks[t] == s.tasks[t]
    {
    }
  }

  lemma NewTaskIdle(spec: Spec)
    ensures forall step :: PhaseOf(NewTask(spec), step) == Idle
  {
  }

  lemma ReleaseMakes(s: State)
    requires LockOK(s) && s.reg.lock.Some?
    ensures Makes(s, Serve(s.(reg := s.reg.(lock := None)), s.reg.lock.value), None)
  {
    hide Serve, Makes, NewTask, ViewOf, LockOK;
    var freed, holder := s.(reg := s.reg.(lock := None)), s.reg.lock.value;
    var s' := Serve(freed, holder);
    ServeShape(freed, holder);
    if s'.tasks == s.tasks {
      ServeViews(s, s');
      PcMoveMakes(s, s', None);
    } else {
      LockSeen(s);
      NewTaskIdle(holder.request.add.spec);
      AddedMakes(s, s', NewTask(holder.request.add.spec));
    }
  }

  lemma LockSeen(s: State)
    requires LockOK(s) && s.reg.lock.Some? && !s.reg.lock.value.sawRunning
    ensures s.pc.Fresh? || s.pc.Claimed?
  {
  }

  lemma ServeViews(s: State, s': State)
    requires s'.tasks == s.tasks && s'.pc == s.pc && s'.ran == s.ran && s'.failed == s.failed
    ensures forall t :: 0 <= t < |s.tasks| ==> SameProgress(ViewOf(s, t), ViewOf(s', t))
  {
    hide ViewAt;
  }

  lemma GoroutineMakes(s: State, a: Action)
    requires ValidConfig(s.cfg) && Enabled(s, a) && (IsGoroutine(a) || a.TaskReturn?)
    ensures Makes(s, Apply(s, a), NewEvent(s, a))
  {
    hide Makes, PrepareTask, BeginTask, ReturnTask, SettleTask, WithPhase, DoReport, PhaseOf, Plausible;
    match a
    case Prepare(t, step) => PrepareMakes(s, t, step);
    case Begin(t, step) => BeginMakes(s, t, step);
    case TaskReturn(t, step, out) => ReturnMakes(s, t, step, out);
    case Settle(t, step) => SettleMakes(s, t, step);
    case Report(t, step) => ReportMakes(s, t, step);
    case Exit(t, step) => ExitMakes(s, t, step);
  }

  // One lemma for each move of the manager from its first stage on.

  lemma InvHolds(s: State)
    requires Inv(s)
    ensures InRange(s) && PcOK(s) && LockOK(s) && (s.pc.Await? && s.pc.step == Start ==> s.setupErrs == [])
  {
    hide TaskOK;
  }

  lemma CheckNextMakes(s: State)
    requires Inv(s) && ValidConfig(s.cfg) && Enabled(s, CheckNext)
    ensures Makes(s, Apply(s, CheckNext), NewEvent(s, CheckNext))
  {
    hide Inv, Makes, DoCheckNext, ValidConfig;
    if InStage(s, s.pc.stage, s.pc.next) { CheckMakes(s); } else { CheckNothing(s); }
  }

  lemma NotifyNextMakes(s: State)
    requires Inv(s) && ValidConfig(s.cfg) && Enabled(s, Notify)
    ensures Makes(s, Apply(s, Notify), NewEvent(s, Notify))
  {
    hide Inv, Makes, PcOK, LockOK, InRange, DoNotify, ValidConfig;
    InvHolds(s);
    NotifyMakes(s);
  }

  lemma WalkMakes(s: State, a: Action)
    requires Inv(s) && ValidConfig(s.cfg) && Enabled(s, a) && (a.EndScan? || a.Proceed?)
    ensures Makes(s, Apply(s, a), NewEvent(s, a))
  {
    hide Inv, Makes, PcOK, LockOK, InRange, DoProceed, MayProceed;
    InvHolds(s);
    if a.EndScan? { EndScanMakes(s); } else { ProceedMakes(s); }
  }

  lemma SelectNextMakes(s: State, caller: bool)
    requires Inv(s) && ValidConfig(s.cfg) && Enabled(s, Select(caller))
    ensures Makes(s, Apply(s, Select(caller)), NewEvent(s, Select(caller)))
  {
    hide Inv, Makes, PcOK, LockOK, InRange, DoSelect;
    InvHolds(s);
    SelectMakes(s, caller);
  }

  lemma TurnNextMakes(s: State)
    requires Inv(s) && ValidConfig(s.cfg) && Enabled(s, Turn)
    ensures Makes(s, Apply(s, Turn), NewEvent(s, Turn))
  {
    hide Inv, Makes, PcOK, LockOK, InRange, DoTurn;
    InvHolds(s);
    TurnMakes(s);
  }

  lemma EndingMakes(s: State, a: Action)
    requires ValidConfig(s.cfg) && Enabled(s, a) && (a.Drained? || a.Close? || a.Build?)
    ensures Makes(s, Apply(s, a), NewEvent(s, a))
  {
    hide Makes, DoClose, DoBuild, AllStartsOver;
    if a.Drained? { DrainedMakes(s); } else { CloseMakes(s); }
  }

  lemma NoEventBefore(s: State, a: Action)
    requires ValidConfig(s.cfg) && Enabled(s, a)
    requires a.CallRun? || a.ReadRegistry? || a.RunHooks? || a.Publish? || a.ApplyPending? || a.Release?
    ensures NewEvent(s, a) == None
  {
  }

  lemma StepMakes(s: State, a: Action)
    requires Inv(s) && Enabled(s, a)
    ensures Makes(s, Apply(s, a), NewEvent(s, a))
  {
    assert PcOK(s) && LockOK(s) && ValidConfig(s.cfg) by { hide TaskOK; }
    if a.Release? {
      hide Inv, Makes, PcOK, LockOK, Serve;
      ReleaseMakes(s);
    } else {
      hide Inv, Makes, PcOK, LockOK, Apply, Enabled, NewEvent;
      if IsGoroutine(a) || a.TaskReturn? { GoroutineMakes(s, a); }
      else if a.CheckNext? { CheckNextMakes(s); }
      else if a.Notify? { NotifyNextMakes(s); }
      else if a.EndScan? || a.Proceed? { WalkMakes(s, a); }
      else if a.Select? { SelectNextMakes(s, a.caller); }
      else if a.Turn? { TurnNextMakes(s); }
      else if a.Drained? || a.Close? || a.Build? { EndingMakes(s, a); }
      else if a.CancelCaller? || a.CancelBase? || a.Tick? || a.Enter? { EnvironmentMakes(s, a); }
      else { BeforeMakes(s, a); NoEventBefore(s, a); }
    }
  }

  // ---------- the history of a run ----------

  lemma StepLinked(s: State, a: Action)
    requires Inv(s) && Enabled(s, a) && Linked(s) && NoRepeat(s.hist)
    ensures Linked(Apply(s, a)) && NoRepeat(Apply(s, a).hist)
  {
    hide Inv, Enabled, Apply, Happened, NewEvent;
    StepMakes(s, a);
  }
}
