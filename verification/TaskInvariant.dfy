/**
 * What holds of one task at any time, given how far the manager has come with it. Each move of a goroutine keeps it,
 * whatever the other tasks do.
 */
module TaskInvariant {
  import opened Errors
  import opened Steps
  import opened Lifecycle

  /**
   * How far the manager has come with a task. For each step: 0 when the step was not checked, 1 when it was, 2 when
   * the manager went on after waiting for the task's stage; for setup, 3 when no setup of the stage failed.
   */
  datatype View = View(setup: nat, start: nat, stop: nat, drained: bool, down: nat, skipped: bool)

  predicate ViewOK(v: View) {
    && v.setup <= 3 && v.start <= 2 && v.stop <= 2 && v.down <= 2
    && (v.start >= 1 ==> v.setup == 3)
    && (v.stop >= 1 ==> v.setup != 1 && v.start != 1 && (v.setup == 3 <==> v.start == 2))
    && (v.drained ==> v.stop == 2)
    && (v.down >= 1 ==> v.drained)
    && (v.skipped ==> v.setup == 0)
  }

  function Progress(v: View, step: Step): nat {
    match step
    case Setup => v.setup
    case Start => v.start
    case Stop => v.stop
    case Teardown => v.down
  }

  /** Launched, but the step is not yet recorded. */
  predicate Early(p: Phase) { p == Launched || p == Ready }

  /** A setup is recorded when it succeeded, or at once when the task has none. */
  predicate SetupOK(task: Task, v: View) {
    && (v.setup == 0 ==> task.setup == Idle && task.log == [])
    && (v.setup >= 1 && task.setup == Idle ==> Setup in task.log && Setup !in task.has)
    && (Live(task.setup) && !task.setup.Settled? && !task.setup.Reported? ==> task.log == [])
    && (Early(task.setup) ==> Setup in task.has)
    && task.setup != Quit
    && ((task.setup.Settled? || task.setup.Reported? || task.setup.Finished?) ==>
          if task.setup.err == None then Setup in task.log else task.log == [])
    && (v.setup >= 2 ==> !Live(task.setup))
    && (v.setup == 3 ==> Setup in task.log)
  }

  /** A start step is recorded when it is called, or at once when the task has none. */
  predicate StartOK(task: Task, v: View, escaped: bool) {
    && (v.start == 0 ==> task.start == Idle && Start !in task.log)
    && (v.start >= 1 && task.start == Idle ==> Start in task.log && Start !in task.has)
    && (task.start != Idle ==> Start in task.has)
    && (Early(task.start) ==> Start !in task.log)
    && (Called(task.start) ==> Start in task.log)
    && task.start != Quit
    && (v.start == 2 ==> task.start != Launched)
    && (v.drained ==> !Live(task.start) || escaped)
  }

  predicate StopOK(task: Task, v: View, escaped: bool) {
    && (v.stop == 0 ==> task.stop == Idle && Stop !in task.log)
    && (task.stop != Idle ==> Start in task.log && CanStart(task.has, task.ssm, Stop))
    && (Early(task.stop) ==> Stop !in task.log)
    && (Called(task.stop) ==> Stop in task.log && Stop in task.has)
    && (task.stop == Quit ==> Stop !in task.log && Stop !in task.has)
    && (task.stop == Idle && Stop in task.log ==> !CanStart(task.has, task.ssm, Stop))
    && (v.stop == 2 ==> !Live(task.stop) || escaped)
  }

  predicate TeardownOK(task: Task, v: View) {
    && (v.down == 0 ==> task.teardown == Idle && Teardown !in task.log)
    && (task.teardown != Idle ==> Setup in task.log && Teardown in task.has)
    && (Early(task.teardown) ==> Teardown !in task.log)
    && (Called(task.teardown) ==> Teardown in task.log)
    && task.teardown != Quit
    && (v.down >= 1 && Setup in task.log && task.teardown == Idle ==> Teardown in task.log && Teardown !in task.has)
    && (v.down >= 1 && Setup !in task.log ==> task.teardown == Idle && Teardown !in task.log)
    && (v.down == 2 ==> !Live(task.teardown))
  }

  predicate LogOK(task: Task, escaped: bool) {
    && WellLogged(task.log)
    && (InOrder(task.log) || escaped)
  }

  predicate PastReady(p: Phase) { p != Idle && p != Launched }

  /** The handles a start step publishes, and what its stop step sees of them. */
  predicate SsmOK(task: Task) {
    && (PastReady(task.start) && task.ssm ==> task.cancel && task.finish != NoFinish)
    && (!(PastReady(task.start) && task.ssm) ==> !task.cancel && task.finish == NoFinish)
    && (task.ssm && (task.start.Ready? || task.start.Calling? || task.start.Returned?) ==> task.finish == Running)
    && (task.ssm && (task.start.Settled? || task.start.Reported? || task.start.Finished?) ==>
          task.finish == Ended(task.start.err))
    && (PastReady(task.stop) && task.ssm ==> task.saw == Some(Handles(task.start != Idle, task.start != Idle)))
    && (!(PastReady(task.stop) && task.ssm) ==> task.saw == None)
  }

  /** The data of an instance task is made by its setup, and until then the task is as it was added. */
  predicate MadeOK(task: Task, errorHandler: ErrorHandler) {
    && (!Over(task.setup) ==> task.has == task.spec.steps && task.ssm == task.spec.ssm && task.data == None)
    && (task.spec.kind != Plain || task.setup != Idle ==> Setup in task.spec.steps)
    && (task.spec.kind != Plain && Over(task.setup) && errorHandler != AnyHandler && task.setup.err == None ==>
          task.data.Some?)
  }

  /** The later steps of the task read that data. */
  predicate ReadingsOK(task: Task) {
    && (task.got != [] ==> Setup in task.log)
    && (forall i :: 0 <= i < |task.got| ==> task.got[i].data == task.data)
    && (Called(task.start) ==> Reading(Start, task.data) in task.got)
    && (Called(task.stop) ==> Reading(Stop, task.data) in task.got)
    && (Called(task.teardown) ==> Reading(Teardown, task.data) in task.got)
  }

  /** The resolutions of a future. */
  predicate FutureOK(task: Task, v: View, errorHandler: ErrorHandler) {
    && (task.spec.kind != Future ==> task.cell == [])
    && (task.spec.kind == Future ==>
          if Over(task.setup) then
            && |task.cell| == 1
            && (task.data.Some? ==> task.cell[0] == Value(task.data.value))
            && (task.data == None ==> task.cell[0].Failure?)
            && (task.data == None && errorHandler == NoHandler ==> task.setup.err == Some(task.cell[0].err))
            && (task.data == None && errorHandler != AnyHandler ==> task.setup.err.Some?)
          else if v.skipped then |task.cell| == 1 && task.cell[0].Failure?
          else task.cell == [])
    && (task.spec.kind == Future ==> task.spec.skippable)
  }

  predicate DataOK(task: Task, v: View, errorHandler: ErrorHandler) {
    MadeOK(task, errorHandler) && ReadingsOK(task) && FutureOK(task, v, errorHandler)
  }

  predicate StepsOK(task: Task, v: View, escaped: bool) {
    && ViewOK(v)
    && SetupOK(task, v)
    && StartOK(task, v, escaped)
    && StopOK(task, v, escaped)
    && TeardownOK(task, v)
  }

  predicate TaskOK(task: Task, v: View, escaped: bool, errorHandler: ErrorHandler) {
    && StepsOK(task, v, escaped)
    && LogOK(task, escaped)
    && SsmOK(task)
    && DataOK(task, v, errorHandler)
  }

  /** A move that leaves the data, the readings and the future of a task alone. */
  lemma SameData(task: Task, task': Task, v: View, v': View, eh: ErrorHandler)
    requires DataOK(task, v, eh) && v'.skipped == v.skipped
    requires task'.spec == task.spec && task'.has == task.has && task'.ssm == task.ssm
    requires task'.data == task.data && task'.got == task.got && task'.cell == task.cell
    requires Over(task'.setup) == Over(task.setup) && (Over(task.setup) ==> task'.setup.err == task.setup.err)
    requires Called(task'.start) == Called(task.start) && Called(task'.stop) == Called(task.stop)
    requires Called(task'.teardown) == Called(task.teardown)
    requires task'.setup != Idle ==> Setup in task.has || task.setup != Idle
    requires Setup in task.log ==> Setup in task'.log
    ensures DataOK(task', v', eh)
  {
  }

  // ---------- moves of a goroutine ----------

  /** The phase of the called step moved on, and how it finished may have been noted. */
  predicate MovedOn(task: Task, task': Task, step: Step) {
    && Called(PhaseOf(task, step)) && Called(PhaseOf(task', step))
    && (Live(PhaseOf(task', step)) ==> Live(PhaseOf(task, step)))
    && match step
       case Setup => task' == task.(setup := task'.setup)
       case Start => task' == task.(start := task'.start, finish := task'.finish)
       case Stop => task' == task.(stop := task'.stop)
       case Teardown => task' == task.(teardown := task'.teardown)
  }

  lemma StartMovedOn(task: Task, task': Task, v: View, esc: bool)
    requires StepsOK(task, v, esc) && MovedOn(task, task', Start)
    ensures StepsOK(task', v, esc)
  {
  }

  lemma StopMovedOn(task: Task, task': Task, v: View, esc: bool)
    requires StepsOK(task, v, esc) && MovedOn(task, task', Stop)
    ensures StepsOK(task', v, esc)
  {
  }

  lemma TeardownMovedOn(task: Task, task': Task, v: View, esc: bool)
    requires StepsOK(task, v, esc) && MovedOn(task, task', Teardown)
    ensures StepsOK(task', v, esc)
  {
  }

  /** A step other than the setup that moves on after it was called keeps its place. */
  lemma MovedOnKeepsSteps(task: Task, task': Task, step: Step, v: View, esc: bool)
    requires StepsOK(task, v, esc) && MovedOn(task, task', step) && step != Setup
    ensures StepsOK(task', v, esc)
  {
    hide StepsOK, MovedOn;
    match step
    case Start => StartMovedOn(task, task', v, esc);
    case Stop => StopMovedOn(task, task', v, esc);
    case Teardown => TeardownMovedOn(task, task', v, esc);
  }

  lemma PrepareKeepsSteps(task: Task, step: Step, v: View, esc: bool)
    requires StepsOK(task, v, esc) && PhaseOf(task, step) == Launched
    ensures StepsOK(PrepareTask(task, step), v, esc)
  {
    match step { case Setup => case Start => case Stop => case Teardown => }
  }

  lemma PrepareKeepsSsm(task: Task, step: Step, v: View, esc: bool)
    requires StepsOK(task, v, esc) && SsmOK(task) && PhaseOf(task, step) == Launched
    ensures SsmOK(PrepareTask(task, step))
  {
    match step { case Setup => case Start => case Stop => case Teardown => }
  }

  lemma PrepareKeepsData(task: Task, step: Step, v: View, eh: ErrorHandler)
    requires DataOK(task, v, eh) && PhaseOf(task, step) == Launched
    ensures DataOK(PrepareTask(task, step), v, eh)
  {
    hide DataOK;
    SameData(task, PrepareTask(task, step), v, v, eh);
  }

  lemma PrepareKeeps(task: Task, step: Step, v: View, esc: bool, eh: ErrorHandler)
    requires TaskOK(task, v, esc, eh) && PhaseOf(task, step) == Launched
    ensures TaskOK(PrepareTask(task, step), v, esc, eh)
  {
    PrepareKeepsSteps(task, step, v, esc);
    PrepareKeepsSsm(task, step, v, esc);
    PrepareKeepsData(task, step, v, eh);
  }

  /** Recording a step that was not recorded keeps the log well formed. */
  lemma AppendLogs(log: seq<Step>, step: Step)
    requires WellLogged(log) && step !in log
    requires if step == Setup then log == [] else Setup in log
    requires step == Stop ==> Start in log
    ensures WellLogged(log + [step])
    ensures InOrder(log) && (forall i :: 0 <= i < |log| ==> Rank(log[i]) < Rank(step)) ==> InOrder(log + [step])
  {
    var log' := log + [step];
    forall j | 0 <= j < |log'| && log'[j] == Stop
      ensures Start in log'[..j]
    {
      if j < |log| {
        assert log'[..j] == log[..j];
      } else {
        assert log'[..j] == log;
      }
    }
  }

  /** The step of a goroutine about to call its task may be recorded. */
  lemma BeginAppends(task: Task, step: Step, v: View, esc: bool, eh: ErrorHandler)
    requires TaskOK(task, v, esc, eh) && PhaseOf(task, step) == Ready && step != Setup && step in task.has
    ensures LogOK(BeginTask(task, step), esc)
  {
    AppendLogs(task.log, step);
    if !esc {
      forall i | 0 <= i < |task.log|
        ensures Rank(task.log[i]) < Rank(step)
      {
        assert task.log[i] in task.log;
      }
    }
  }

  lemma BeginSetupKeepsSteps(task: Task, v: View, esc: bool)
    requires StepsOK(task, v, esc) && task.setup == Ready
    ensures StepsOK(BeginTask(task, Setup), v, esc)
  {
  }

  lemma BeginStartKeepsSteps(task: Task, v: View, esc: bool)
    requires StepsOK(task, v, esc) && task.start == Ready
    ensures StepsOK(BeginTask(task, Start), v, esc)
  {
  }

  lemma BeginStopKeepsSteps(task: Task, v: View, esc: bool)
    requires StepsOK(task, v, esc) && task.stop == Ready
    ensures StepsOK(BeginTask(task, Stop), v, esc)
  {
  }

  lemma BeginTeardownKeepsSteps(task: Task, v: View, esc: bool)
    requires StepsOK(task, v, esc) && task.teardown == Ready
    ensures StepsOK(BeginTask(task, Teardown), v, esc)
  {
  }

  lemma BeginKeepsSteps(task: Task, step: Step, v: View, esc: bool)
    requires StepsOK(task, v, esc) && PhaseOf(task, step) == Ready
    ensures StepsOK(BeginTask(task, step), v, esc)
  {
    hide StepsOK, BeginTask;
    match step
    case Setup => BeginSetupKeepsSteps(task, v, esc);
    case Start => BeginStartKeepsSteps(task, v, esc);
    case Stop => BeginStopKeepsSteps(task, v, esc);
    case Teardown => BeginTeardownKeepsSteps(task, v, esc);
  }

  /** Only a task that was set up is about to be called with another step. */
  lemma ReadyIsSetUp(task: Task, step: Step, v: View, esc: bool)
    requires StepsOK(task, v, esc) && PhaseOf(task, step) == Ready && step != Setup
    ensures Setup in task.log
  {
  }

  /** What the manager and the goroutine of a task do to the data and its future: nothing. */
  predicate SameStore(task: Task, task': Task) {
    && task'.spec == task.spec && task'.has == task.has && task'.ssm == task.ssm
    && task'.data == task.data && task'.cell == task.cell
    && Over(task'.setup) == Over(task.setup) && (Over(task.setup) ==> task'.setup == task.setup)
    && (task'.setup == Idle <==> task.setup == Idle)
  }

  lemma BeginStores(task: Task, step: Step)
    requires PhaseOf(task, step) == Ready
    ensures SameStore(task, BeginTask(task, step))
  {
  }

  lemma BeginKeepsMade(task: Task, step: Step, v: View, eh: ErrorHandler)
    requires MadeOK(task, eh) && FutureOK(task, v, eh) && PhaseOf(task, step) == Ready
    ensures MadeOK(BeginTask(task, step), eh) && FutureOK(BeginTask(task, step), v, eh)
  {
    hide BeginTask;
    BeginStores(task, step);
  }

  lemma BeginReads(task: Task, step: Step)
    requires PhaseOf(task, step) == Ready
    ensures var task' := BeginTask(task, step);
      && task'.data == task.data && task.log <= task'.log
      && task'.got == (if step in task.has && step != Setup then task.got + [Reading(step, task.data)] else task.got)
      && (Called(task'.start) ==> Called(task.start) || (step == Start && Start in task.has))
      && (Called(task'.stop) ==> Called(task.stop) || (step == Stop && Stop in task.has))
      && (Called(task'.teardown) ==> Called(task.teardown) || (step == Teardown && Teardown in task.has))
  {
  }

  lemma BeginKeepsReadings(task: Task, step: Step)
    requires ReadingsOK(task) && PhaseOf(task, step) == Ready && (step != Setup ==> Setup in task.log)
    ensures ReadingsOK(BeginTask(task, step))
  {
    hide BeginTask;
    BeginReads(task, step);
  }

  lemma BeginKeepsData(task: Task, step: Step, v: View, esc: bool, eh: ErrorHandler)
    requires StepsOK(task, v, esc) && DataOK(task, v, eh) && PhaseOf(task, step) == Ready
    ensures DataOK(BeginTask(task, step), v, eh)
  {
    if step != Setup { ReadyIsSetUp(task, step, v, esc); }
    hide StepsOK, MadeOK, ReadingsOK, FutureOK, BeginTask;
    BeginKeepsReadings(task, step);
    BeginKeepsMade(task, step, v, eh);
  }

  lemma BeginKeepsSsm(task: Task, step: Step, v: View, esc: bool)
    requires StepsOK(task, v, esc) && SsmOK(task) && PhaseOf(task, step) == Ready
    ensures SsmOK(BeginTask(task, step))
  {
    match step { case Setup => case Start => case Stop => case Teardown => }
  }

  lemma BeginKeeps(task: Task, step: Step, v: View, esc: bool, eh: ErrorHandler)
    requires TaskOK(task, v, esc, eh) && PhaseOf(task, step) == Ready
    ensures TaskOK(BeginTask(task, step), v, esc, eh)
  {
    BeginKeepsSteps(task, step, v, esc);
    BeginKeepsSsm(task, step, v, esc);
    BeginKeepsData(task, step, v, esc, eh);
    assert LogOK(BeginTask(task, step), esc) by {
      if step in task.has && step != Setup {
        BeginAppends(task, step, v, esc, eh);
      }
    }
  }

  lemma ReturnSetupKeepsSteps(cfg: Config, task: Task, out: Outcome, v: View, esc: bool)
    requires StepsOK(task, v, esc) && task.setup == Calling && Plausible(cfg, task, Setup, out)
    ensures StepsOK(ReturnTask(task, Setup, out), v, esc)
  {
  }

  lemma ReturnKeepsSteps(cfg: Config, task: Task, step: Step, out: Outcome, v: View, esc: bool)
    requires StepsOK(task, v, esc) && PhaseOf(task, step) == Calling && Plausible(cfg, task, step, out)
    ensures StepsOK(ReturnTask(task, step, out), v, esc)
  {
    hide StepsOK;
    if step == Setup {
      ReturnSetupKeepsSteps(cfg, task, out, v, esc);
    } else {
      MovedOnKeepsSteps(task, ReturnTask(task, step, out), step, v, esc);
    }
  }

  lemma ReturnKeepsSsm(cfg: Config, task: Task, step: Step, out: Outcome, v: View, esc: bool)
    requires StepsOK(task, v, esc) && SsmOK(task)
    requires PhaseOf(task, step) == Calling && Plausible(cfg, task, step, out)
    ensures SsmOK(ReturnTask(task, step, out))
  {
    match step { case Setup => case Start => case Stop => case Teardown => }
  }

  lemma CalledSetup(task: Task, v: View, esc: bool)
    requires StepsOK(task, v, esc) && task.setup == Calling
    ensures task.log == [] && !v.skipped
  {
  }

  /** The setup function returned: data was made once, or there is an error, and the future is resolved. */
  lemma ReturnKeepsMade(cfg: Config, task: Task, out: Outcome, v: View)
    requires DataOK(task, v, cfg.errorHandler) && task.setup == Calling && Plausible(cfg, task, Setup, out)
    requires task.log == [] && !v.skipped
    ensures DataOK(ReturnTask(task, Setup, out), v, cfg.errorHandler)
  {
  }

  lemma ReturnKeepsData(cfg: Config, task: Task, step: Step, out: Outcome, v: View, esc: bool)
    requires StepsOK(task, v, esc) && DataOK(task, v, cfg.errorHandler)
    requires PhaseOf(task, step) == Calling && Plausible(cfg, task, step, out)
    ensures DataOK(ReturnTask(task, step, out), v, cfg.errorHandler)
  {
    hide DataOK, StepsOK;
    if step == Setup {
      CalledSetup(task, v, esc);
      ReturnKeepsMade(cfg, task, out, v);
    } else {
      SameData(task, ReturnTask(task, step, out), v, v, cfg.errorHandler);
    }
  }

  lemma ReturnKeeps(cfg: Config, task: Task, step: Step, out: Outcome, v: View, esc: bool)
    requires TaskOK(task, v, esc, cfg.errorHandler) && PhaseOf(task, step) == Calling
    requires Plausible(cfg, task, step, out)
    ensures TaskOK(ReturnTask(task, step, out), v, esc, cfg.errorHandler)
  {
    ReturnKeepsSteps(cfg, task, step, out, v, esc);
    ReturnKeepsSsm(cfg, task, step, out, v, esc);
    ReturnKeepsData(cfg, task, step, out, v, esc);
    assert ReturnTask(task, step, out).log == task.log;
  }

  lemma SettleSetupKeepsSteps(task: Task, v: View, esc: bool)
    requires StepsOK(task, v, esc) && task.setup.Returned?
    ensures StepsOK(SettleTask(task, Setup), v, esc)
  {
  }

  lemma SettleKeepsSteps(task: Task, step: Step, v: View, esc: bool)
    requires StepsOK(task, v, esc) && PhaseOf(task, step).Returned?
    ensures StepsOK(SettleTask(task, step), v, esc)
  {
    hide StepsOK;
    if step == Setup {
      SettleSetupKeepsSteps(task, v, esc);
    } else {
      MovedOnKeepsSteps(task, SettleTask(task, step), step, v, esc);
    }
  }

  lemma SettleKeepsLog(task: Task, step: Step, v: View, esc: bool)
    requires StepsOK(task, v, esc) && LogOK(task, esc) && PhaseOf(task, step).Returned?
    ensures LogOK(SettleTask(task, step), esc)
  {
    if step == Setup && task.setup.err == None {
      AppendLogs(task.log, Setup);
    }
  }

  lemma SettleKeepsSsm(task: Task, step: Step)
    requires SsmOK(task) && PhaseOf(task, step).Returned?
    ensures SsmOK(SettleTask(task, step))
  {
  }

  lemma SettleKeepsData(task: Task, step: Step, v: View, eh: ErrorHandler)
    requires DataOK(task, v, eh) && PhaseOf(task, step).Returned?
    ensures DataOK(SettleTask(task, step), v, eh)
  {
    hide DataOK;
    SameData(task, SettleTask(task, step), v, v, eh);
  }

  lemma SettleKeeps(task: Task, step: Step, v: View, esc: bool, eh: ErrorHandler)
    requires TaskOK(task, v, esc, eh) && PhaseOf(task, step).Returned?
    ensures TaskOK(SettleTask(task, step), v, esc, eh)
  {
    hide StepsOK, LogOK, SsmOK, DataOK, SettleTask;
    SettleKeepsSteps(task, step, v, esc);
    SettleKeepsLog(task, step, v, esc);
    SettleKeepsSsm(task, step);
    SettleKeepsData(task, step, v, eh);
  }

  /** The phase after the step is recorded. */
  predicate Ending(p: Phase, p': Phase) {
    || (p.Settled? && p' == Reported(p.err))
    || (p.Reported? && p' == Finished(p.err))
  }

  lemma SetupEndKeepsSteps(task: Task, p: Phase, v: View, esc: bool)
    requires StepsOK(task, v, esc) && Ending(task.setup, p)
    ensures StepsOK(WithPhase(task, Setup, p), v, esc)
  {
  }

  lemma EndKeepsSteps(task: Task, step: Step, p: Phase, v: View, esc: bool)
    requires StepsOK(task, v, esc) && Ending(PhaseOf(task, step), p)
    ensures StepsOK(WithPhase(task, step, p), v, esc)
  {
    hide StepsOK;
    if step == Setup {
      SetupEndKeepsSteps(task, p, v, esc);
    } else {
      MovedOnKeepsSteps(task, WithPhase(task, step, p), step, v, esc);
    }
  }

  lemma EndKeepsSsm(task: Task, step: Step, p: Phase)
    requires SsmOK(task) && Ending(PhaseOf(task, step), p)
    ensures SsmOK(WithPhase(task, step, p))
  {
  }

  lemma EndKeepsData(task: Task, step: Step, p: Phase, v: View, eh: ErrorHandler)
    requires DataOK(task, v, eh) && Ending(PhaseOf(task, step), p)
    ensures DataOK(WithPhase(task, step, p), v, eh)
  {
    hide DataOK;
    SameData(task, WithPhase(task, step, p), v, v, eh);
  }

  lemma EndKeeps(task: Task, step: Step, p: Phase, v: View, esc: bool, eh: ErrorHandler)
    requires TaskOK(task, v, esc, eh) && Ending(PhaseOf(task, step), p)
    ensures TaskOK(WithPhase(task, step, p), v, esc, eh)
  {
    hide StepsOK, SsmOK, DataOK;
    EndKeepsSteps(task, step, p, v, esc);
    EndKeepsSsm(task, step, p);
    EndKeepsData(task, step, p, v, eh);
  }

  // ---------- moves of the manager ----------

  function AfterCheck(v: View, step: Step): View {
    match step
    case Setup => v.(setup := 1)
    case Start => v.(start := 1)
    case Stop => v.(stop := 1)
    case Teardown => v.(down := 1)
  }

  /** The checks the manager makes are never out of order. */
  lemma CheckInOrder(task: Task, step: Step, v: View, esc: bool)
    requires StepsOK(task, v, esc) && Progress(v, step) == 0 && ViewOK(AfterCheck(v, step))
    ensures !InvalidOrder(task, step)
  {
  }

  lemma CheckSetupKeepsSteps(task: Task, v: View, esc: bool)
    requires StepsOK(task, v, esc) && Progress(v, Setup) == 0 && ViewOK(AfterCheck(v, Setup))
    ensures StepsOK(CheckTask(task, Setup), AfterCheck(v, Setup), esc)
  {
  }

  lemma CheckStartKeepsSteps(task: Task, v: View, esc: bool)
    requires StepsOK(task, v, esc) && Progress(v, Start) == 0 && ViewOK(AfterCheck(v, Start))
    ensures StepsOK(CheckTask(task, Start), AfterCheck(v, Start), esc)
  {
  }

  lemma CheckStopKeepsSteps(task: Task, v: View, esc: bool)
    requires StepsOK(task, v, esc) && Progress(v, Stop) == 0 && ViewOK(AfterCheck(v, Stop))
    ensures StepsOK(CheckTask(task, Stop), AfterCheck(v, Stop), esc)
  {
  }

  lemma TeardownChecked(task: Task, v: View)
    requires TeardownOK(task, v) && v.down == 0
    ensures var task' := CheckTask(task, Teardown);
      && TeardownOK(task', AfterCheck(v, Teardown))
      && task' == task.(log := task'.log, teardown := task'.teardown)
      && (task'.log == task.log || task'.log == task.log + [Teardown])
      && (task.log == [] ==> task'.log == [])
  {
  }

  /** The setup, start and stop steps do not notice that a teardown step was checked. */
  lemma BesidesTeardown(task: Task, task': Task, v: View, esc: bool)
    requires SetupOK(task, v) && StartOK(task, v, esc) && StopOK(task, v, esc)
    requires task' == task.(log := task'.log, teardown := task'.teardown)
    requires task'.log == task.log || (task'.log == task.log + [Teardown] && task.log != [])
    ensures SetupOK(task', v.(down := 1)) && StartOK(task', v.(down := 1), esc) && StopOK(task', v.(down := 1), esc)
  {
    assert forall step: Step :: step != Teardown ==> (step in task'.log <==> step in task.log);
  }

  lemma CheckTeardownKeepsSteps(task: Task, v: View, esc: bool)
    requires StepsOK(task, v, esc) && Progress(v, Teardown) == 0 && ViewOK(AfterCheck(v, Teardown))
    ensures StepsOK(CheckTask(task, Teardown), AfterCheck(v, Teardown), esc)
  {
    TeardownChecked(task, v);
    hide TeardownOK, CheckTask;
    BesidesTeardown(task, CheckTask(task, Teardown), v, esc);
  }

  lemma CheckKeepsSteps(task: Task, step: Step, v: View, esc: bool)
    requires StepsOK(task, v, esc) && Progress(v, step) == 0 && ViewOK(AfterCheck(v, step))
    ensures StepsOK(CheckTask(task, step), AfterCheck(v, step), esc)
  {
    match step
    case Setup => CheckSetupKeepsSteps(task, v, esc);
    case Start => CheckStartKeepsSteps(task, v, esc);
    case Stop => CheckStopKeepsSteps(task, v, esc);
    case Teardown => CheckTeardownKeepsSteps(task, v, esc);
  }

  /** A step that is recorded at its check comes after those that are recorded. */
  lemma CheckAppends(task: Task, step: Step, v: View, esc: bool)
    requires StepsOK(task, v, esc) && Progress(v, step) == 0 && ViewOK(AfterCheck(v, step))
    ensures CheckTask(task, step).log == task.log
         || ( && CheckTask(task, step).log == task.log + [step] && step !in task.log
              && (if step == Setup then task.log == [] else Setup in task.log) && (step == Stop ==> Start in task.log)
              && forall u :: u in task.log ==> Rank(u) < Rank(step))
  {
    match step { case Setup => case Start => case Stop => case Teardown => }
  }

  lemma CheckKeepsLog(task: Task, step: Step, v: View, esc: bool)
    requires StepsOK(task, v, esc) && LogOK(task, esc)
    requires Progress(v, step) == 0 && ViewOK(AfterCheck(v, step))
    ensures LogOK(CheckTask(task, step), esc)
  {
    hide StepsOK, CheckTask;
    CheckAppends(task, step, v, esc);
    if CheckTask(task, step).log != task.log { AppendLogs(task.log, step); }
  }

  /** A check launches the step, which the task can start then, or records it, or does nothing. */
  lemma CheckEffect(task: Task, step: Step)
    ensures var task' := CheckTask(task, step);
      || (task' == WithPhase(task, step, Launched) && CanStart(task.has, task.ssm, step))
      || task' == task.(log := task.log + [step])
      || task' == task
  {
  }

  lemma CheckKeepsSsm(task: Task, step: Step, v: View, esc: bool)
    requires StepsOK(task, v, esc) && SsmOK(task) && Progress(v, step) == 0
    ensures SsmOK(CheckTask(task, step))
  {
    assert PhaseOf(task, step) == Idle;
    hide StepsOK, CheckTask;
    CheckEffect(task, step);
  }

  lemma CheckKeepsData(task: Task, step: Step, v: View, eh: ErrorHandler)
    requires DataOK(task, v, eh) && PhaseOf(task, step) == Idle
    ensures DataOK(CheckTask(task, step), AfterCheck(v, step), eh)
  {
    hide CheckTask;
    CheckEffect(task, step);
    SameData(task, CheckTask(task, step), v, AfterCheck(v, step), eh);
  }

  lemma CheckKeeps(task: Task, step: Step, v: View, esc: bool, eh: ErrorHandler)
    requires TaskOK(task, v, esc, eh) && Progress(v, step) == 0 && ViewOK(AfterCheck(v, step))
    ensures TaskOK(CheckTask(task, step), AfterCheck(v, step), esc, eh)
  {
    assert PhaseOf(task, step) == Idle by { hide LogOK, SsmOK, DataOK; }
    hide StepsOK, LogOK, SsmOK, DataOK, CheckTask, ViewOK;
    CheckKeepsSteps(task, step, v, esc);
    CheckKeepsLog(task, step, v, esc);
    CheckKeepsSsm(task, step, v, esc);
    CheckKeepsData(task, step, v, eh);
  }

  /** What a later view may claim of a task that did not move. */
  predicate Advances(task: Task, v: View, v': View, esc: bool) {
    && (forall step :: Progress(v, step) >= 1 <==> Progress(v', step) >= 1)
    && (v'.setup >= 2 ==> !Live(task.setup))
    && (v'.setup == 3 ==> Setup in task.log)
    && (v'.start == 2 ==> task.start != Launched)
    && (v'.drained ==> !Live(task.start) || esc)
    && (v'.stop == 2 ==> !Live(task.stop) || esc)
    && (v'.down == 2 ==> !Live(task.teardown))
    && v'.skipped == v.skipped
  }

  lemma AdvanceKeeps(task: Task, v: View, v': View, esc: bool, eh: ErrorHandler)
    requires TaskOK(task, v, esc, eh) && ViewOK(v') && Advances(task, v, v', esc)
    ensures TaskOK(task, v', esc, eh)
  {
    assert Progress(v, Setup) >= 1 <==> Progress(v', Setup) >= 1;
    assert Progress(v, Start) >= 1 <==> Progress(v', Start) >= 1;
    assert Progress(v, Stop) >= 1 <==> Progress(v', Stop) >= 1;
    assert Progress(v, Teardown) >= 1 <==> Progress(v', Teardown) >= 1;
  }

  lemma SkipKeeps(task: Task, cause: Option<Err>, v: View, esc: bool, eh: ErrorHandler)
    requires TaskOK(task, v, esc, eh) && v.setup == 0
    ensures TaskOK(if task.spec.skippable then SkipTask(task, cause) else task, v.(skipped := true), esc, eh)
  {
  }

  lemma EscapeKeeps(task: Task, v: View, esc: bool, eh: ErrorHandler)
    requires TaskOK(task, v, esc, eh)
    ensures TaskOK(task, v, true, eh)
  {
  }

  lemma NewKeeps(spec: Spec, esc: bool, eh: ErrorHandler)
    requires spec.kind != Plain ==> Setup in spec.steps
    requires spec.kind == Future ==> spec.skippable
    ensures TaskOK(NewTask(spec), View(0, 0, 0, false, 0, false), esc, eh)
  {
  }
}
