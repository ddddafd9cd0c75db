/** Runs that show where a promise ends: each is a real run, step by step, of a small service. */
module Limits {
  import opened Errors
  import opened Steps
  import opened Lifecycle
  import opened Stops
  import opened Liveness
  import opened AllRuns
  import RunGuarantees
  import DataGuarantees
  import StageGuarantees

  // ---------- building runs ----------

  /** One more move of a run. */
  lemma Next(s: State, a: Action) returns (s': State)
    requires Reachable(s) && ValidConfig(s.cfg) && Enabled(s, a) && Apply(s, a).cfg == s.cfg
    ensures s' == Apply(s, a) && Reachable(s') && s'.cfg == s.cfg
  {
    s' := Apply(s, a);
    hide Apply, Enabled, Path;
    var acts :| ValidConfig(s.cfg) && Path(Init(s.cfg), acts, s);
    PathAppend(Init(s.cfg), acts, s, a);
  }

  function NewTasks(specs: seq<Spec>): (tasks: seq<Task>)
    ensures |tasks| == |specs| && forall t :: 0 <= t < |specs| ==> tasks[t] == NewTask(specs[t])
  {
    if specs == [] then [] else NewTasks(specs[..|specs| - 1]) + [NewTask(specs[|specs| - 1])]
  }

  /** All tasks are added before the run. */
  lemma {:induction false} AddTasks(cfg: Config, specs: seq<Spec>) returns (s: State)
    requires ValidConfig(cfg) && forall t :: 0 <= t < |specs| ==> ValidRequest(cfg, AddTask(GoodTask(specs[t])))
    ensures Reachable(s) && s == Init(cfg).(tasks := NewTasks(specs))
    decreases |specs|
  {
    if specs == [] {
      s := Init(cfg);
      assert Path(s, [], s);
    } else {
      var spec := specs[|specs| - 1];
      s := AddTasks(cfg, specs[..|specs| - 1]);
      hide Reachable;
      s := Next(s, Enter(AddTask(GoodTask(spec))));
      s := Next(s, Release);
    }
  }

  /** The run came to its first stage. */
  function Booted(cfg: Config, specs: seq<Spec>): State {
    Init(cfg).(tasks := NewTasks(specs), pc := Scan(Setup, 0, 0), ran := 1,
               ctx := Contexts(None, true, None, [], None, None, None))
  }

  lemma Claim(cfg: Config, specs: seq<Spec>) returns (s: State)
    requires ValidConfig(cfg) && forall t :: 0 <= t < |specs| ==> ValidRequest(cfg, AddTask(GoodTask(specs[t])))
    requires exists t :: 0 <= t < |specs| && Start in specs[t].steps
    ensures Reachable(s) && s == Init(cfg).(tasks := NewTasks(specs), pc := Hooking)
  {
    s := AddTasks(cfg, specs);
    hide Reachable;
    var t :| 0 <= t < |specs| && Start in specs[t].steps;
    assert Start in s.tasks[t].has;
    s := Next(s, CallRun);
    s := Next(s, ReadRegistry);
  }

  lemma Boot(cfg: Config, specs: seq<Spec>) returns (s: State)
    requires ValidConfig(cfg) && forall t :: 0 <= t < |specs| ==> ValidRequest(cfg, AddTask(GoodTask(specs[t])))
    requires exists t :: 0 <= t < |specs| && Start in specs[t].steps
    ensures Reachable(s) && s == Booted(cfg, specs)
  {
    s := Claim(cfg, specs);
    hide Reachable, NewTasks;
    s := Next(s, RunHooks(None));
    s := EnterFirstStage(s);
  }

  lemma EnterFirstStage(s: State) returns (s': State)
    requires Reachable(s) && ValidConfig(s.cfg) && s.pc.Publishing? && s.reg.lock == None && s.reg.pending == None
    ensures Reachable(s')
    ensures s' == s.(pc := Scan(Setup, 0, 0), ran := 1, setupErrs := [],
                     ctx := s.ctx.(published := true, startup := s.ctx.caller))
  {
    hide Reachable;
    s' := Next(s, Publish);
    s' := Next(s', ApplyPending);
  }

  // ---------- moves of the manager ----------

  lemma CheckOne(s: State) returns (s': State)
    requires Reachable(s) && ValidConfig(s.cfg) && s.pc.Scan? && s.pc.next < |s.tasks|
    requires InStage(s, s.pc.stage, s.pc.next) && !InvalidOrder(s.tasks[s.pc.next], s.pc.step)
    ensures Reachable(s')
    ensures s' == s.(pc := Scan(s.pc.step, s.pc.stage, s.pc.next + 1), hist := s.hist + [CheckE(s.pc.next, s.pc.step)],
                     tasks := s.tasks[s.pc.next := CheckTask(s.tasks[s.pc.next], s.pc.step)])
  {
    hide Reachable, CheckTask, InvalidOrder;
    s' := Next(s, CheckNext);
  }

  lemma Leave(s: State) returns (s': State)
    requires Reachable(s) && ValidConfig(s.cfg) && s.pc.Scan? && s.pc.next == |s.tasks|
    requires MayProceed(s, s.pc.step, s.pc.stage)
    ensures Reachable(s') && s' == DoProceed(s.(pc := Await(s.pc.step, s.pc.stage)))
  {
    hide Reachable, MayProceed, StageQuiet, StageSignalled, Escaped;
    var step, stage := s.pc.step, s.pc.stage;
    s' := Next(s, EndScan);
    assert MayProceed(s', step, stage) by { SameWait(s, s', step, stage); }
    s' := Next(s', Proceed);
  }

  lemma SameWait(s: State, s': State, step: Step, stage: nat)
    requires MayProceed(s, step, stage) && s'.tasks == s.tasks && s'.cfg == s.cfg && s'.ctx == s.ctx
    ensures MayProceed(s', step, stage)
  {
  }

  // ---------- moves of a setup ----------

  /** A setup that makes no data runs to its end. */
  lemma SetUp(s: State, t: nat, out: Outcome) returns (s': State)
    requires Reachable(s) && ValidConfig(s.cfg) && InPhase(s, t, Setup, Launched)
    requires s.tasks[t].spec.kind != Future && Setup in s.tasks[t].has && Plausible(s.cfg, s.tasks[t], Setup, out)
    requires s.tasks[t].data == None && out.made == None
    ensures Reachable(s')
    ensures var task := s.tasks[t];
      var done := task.(setup := Finished(out.err), has := out.has, ssm := out.ssm,
                        log := if out.err == None then task.log + [Setup] else task.log);
      s' == OnError(s.(tasks := s.tasks[t := done], hist := s.hist + [CallE(t, Setup), ReturnE(t, Setup)]),
                    t, Setup, out.err)
  {
    s' := CallSetup(s, t);
    s' := ReturnSetup(s', t, out);
    s' := LeaveSetup(s', t);
  }

  lemma CallSetup(s: State, t: nat) returns (s': State)
    requires Reachable(s) && ValidConfig(s.cfg) && InPhase(s, t, Setup, Launched) && Setup in s.tasks[t].has
    ensures Reachable(s')
    ensures s' == s.(tasks := s.tasks[t := s.tasks[t].(setup := Calling)], hist := s.hist + [CallE(t, Setup)])
  {
    hide Reachable;
    s' := Next(s, Prepare(t, Setup));
    s' := Next(s', Begin(t, Setup));
  }

  lemma ReturnSetup(s: State, t: nat, out: Outcome) returns (s': State)
    requires Reachable(s) && ValidConfig(s.cfg) && InPhase(s, t, Setup, Calling)
    requires s.tasks[t].spec.kind != Future && Plausible(s.cfg, s.tasks[t], Setup, out)
    requires s.tasks[t].data == None && out.made == None
    ensures Reachable(s')
    ensures var task := s.tasks[t];
      s' == s.(tasks := s.tasks[t := task.(setup := Settled(out.err), has := out.has, ssm := out.ssm,
                                           log := if out.err == None then task.log + [Setup] else task.log)],
               hist := s.hist + [ReturnE(t, Setup)])
  {
    hide Reachable;
    s' := Next(s, TaskReturn(t, Setup, out));
    s' := Next(s', Settle(t, Setup));
  }

  lemma LeaveSetup(s: State, t: nat) returns (s': State)
    requires Reachable(s) && ValidConfig(s.cfg) && t < |s.tasks| && s.tasks[t].setup.Settled?
    ensures Reachable(s')
    ensures s' == OnError(s.(tasks := s.tasks[t := s.tasks[t].(setup := Finished(s.tasks[t].setup.err))]),
                          t, Setup, s.tasks[t].setup.err)
  {
    hide Reachable, Flat;
    s' := Next(s, Report(t, Setup));
    s' := Next(s', Exit(t, Setup));
  }

  // ---------- a service of one stage ----------

  const QUIET := Config(1, false, 0, 0, NoHandler, false, false, false)

  /** What the checks of a task without a setup step, and of a task without a start step, record. */
  lemma ChecksRecord(task: Task)
    ensures task.log == [] && Setup in task.has ==>
              CheckTask(task, Setup) == task.(setup := Launched) && !InvalidOrder(task, Setup)
    ensures task.log == [] && Setup !in task.has ==>
              CheckTask(task, Setup) == task.(log := [Setup]) && !InvalidOrder(task, Setup)
    ensures task.log == [Setup] && Start in task.has ==>
              CheckTask(task, Start) == task.(start := Launched) && !InvalidOrder(task, Start)
    ensures task.log == [Setup] && Start !in task.has ==>
              CheckTask(task, Start) == task.(log := [Setup, Start]) && !InvalidOrder(task, Start)
    ensures task.log == [Setup] ==> CheckTask(task, Stop) == task && !InvalidOrder(task, Stop)
  {
    assert [] + [Setup] == [Setup];
    assert [Setup] + [Start] == [Setup, Start];
  }

  lemma CheckOnly(s: State, task: Task) returns (s': State)
    requires Reachable(s) && ValidConfig(s.cfg) && s.tasks == [task] && s.pc.Scan? && s.pc.next == 0
    requires task.spec.stage == s.pc.stage && !InvalidOrder(task, s.pc.step)
    ensures Reachable(s')
    ensures s' == s.(pc := Scan(s.pc.step, s.pc.stage, 1), hist := s.hist + [CheckE(0, s.pc.step)],
                     tasks := [CheckTask(task, s.pc.step)])
  {
    hide Reachable, CheckTask, InvalidOrder;
    s' := CheckOne(s);
    assert s'.tasks == [CheckTask(task, s.pc.step)];
  }

  /** After the setups of the first stage. */
  lemma Forward(s: State) returns (s': State)
    requires Reachable(s) && ValidConfig(s.cfg) && s.pc == Scan(Setup, 0, |s.tasks|) && s.setupErrs == []
    requires StageQuiet(s, Setup, 0)
    ensures Reachable(s') && s' == s.(pc := Scan(Start, 0, 0))
  {
    hide Reachable, StageQuiet;
    s' := Leave(s);
  }

  /** After the start steps of the only stage were launched. */
  lemma StartedAll(s: State) returns (s': State)
    requires Reachable(s) && s.cfg.stages == 1 && s.pc == Scan(Start, 0, |s.tasks|) && StageSignalled(s, 0)
    ensures Reachable(s') && s' == s.(pc := Selecting)
  {
    hide Reachable, StageSignalled;
    s' := Leave(s);
    s' := Next(s', Notify);
  }

  /** A stage that has no task is walked through. */
  lemma PassOver(s: State) returns (s': State)
    requires Reachable(s) && ValidConfig(s.cfg) && s.pc.Scan? && s.pc.next == 0
    requires |s.tasks| == 1 && s.tasks[0].spec.stage != s.pc.stage
    ensures Reachable(s') && s' == s.(pc := Scan(s.pc.step, s.pc.stage, 1))
  {
    hide Reachable, CheckTask, InvalidOrder;
    s' := Next(s, CheckNext);
  }

  lemma PassStage(s: State) returns (s': State)
    requires Reachable(s) && ValidConfig(s.cfg) && s.pc.Scan? && s.pc == Scan(Setup, s.pc.stage, 0) && s.setupErrs == []
    requires |s.tasks| == 1 && s.tasks[0].spec.stage != s.pc.stage
    ensures Reachable(s') && s' == s.(pc := Scan(Start, s.pc.stage, 1))
  {
    hide Reachable;
    s' := PassOver(s);
    s' := Leave(s');
    s' := PassOver(s');
  }

  /** From the stage of the only task, whose start step is not launched, to the wait for a first task. */
  lemma {:induction false} PassRest(s: State) returns (s': State)
    requires Reachable(s) && ValidConfig(s.cfg) && s.pc.Scan? && s.pc == Scan(Start, s.pc.stage, 1) && s.setupErrs == []
    requires |s.tasks| == 1 && s.tasks[0].spec.stage == 0 && s.tasks[0].start == Idle && s.pc.stage < s.cfg.stages
    ensures Reachable(s') && s' == s.(pc := Selecting, ran := s'.ran)
    decreases s.cfg.stages - s.pc.stage
  {
    hide Reachable;
    var stage := s.pc.stage;
    s' := Leave(s);
    if stage + 1 < s.cfg.stages {
      s' := PassStage(s');
      s' := PassRest(s');
    } else {
      s' := Next(s', Notify);
    }
  }

  /** A task whose setup step takes its start step away, as a task whose parent is replaced may. */
  const DROPPING := Spec(0, Plain, false, {Setup, Start}, false)

  /**
   * When a setup may take a start step away, a run of any configuration may wait forever: the only start step is
   * counted when the run begins, and is gone when it would be launched.
   */
  lemma DroppedStartAbandons(cfg: Config) returns (s: State)
    requires ValidConfig(cfg) && !cfg.keepsStart
    ensures Reachable(s) && s.cfg == cfg && Abandoned(s) && !CanMove(s) && !InCall(s)
  {
    hide Reachable, DoProceed, CheckTask, InvalidOrder, CanMove, InCall;
    var task := NewTask(DROPPING);
    assert Start in [DROPPING][0].steps;
    s := Boot(cfg, [DROPPING]);
    assert s.tasks == [task];
    ChecksRecord(task);
    s := CheckOnly(s, task);
    s := SetUp(s, 0, Outcome(None, None, None, {Setup}, false));
    task := task.(setup := Finished(None), has := {Setup}, log := [Setup]);
    assert s.tasks == [task] by { assert [] + [Setup] == [Setup]; }
    s := Forward(s);
    ChecksRecord(task);
    s := CheckOnly(s, task);
    s := PassRest(s);
    AbandonedForGood(s);
  }

  ghost predicate NeverAbandons(cfg: Config) {
    forall s :: Reachable(s) && s.cfg == cfg ==> !Abandoned(s)
  }

  /** No run of a configuration is ever abandoned if and only if no setup may take a start step away. */
  lemma NeverAbandonsIff(cfg: Config)
    requires ValidConfig(cfg)
    ensures NeverAbandons(cfg) <==> cfg.keepsStart
  {
    hide Reachable, Abandoned;
    if cfg.keepsStart {
      forall s | Reachable(s) && s.cfg == cfg
        ensures !Abandoned(s)
      {
        RunGuarantees.NeverAbandoned(s);
      }
    } else {
      var s := DroppedStartAbandons(cfg);
    }
  }

  lemma AbandonedForGood(s: State)
    requires Reachable(s) && Abandoned(s)
    ensures !CanMove(s) && !InCall(s)
  {
    hide *;
    ReachableCauses(s);
    AbandonedWaits(s);
  }

  const STOPPABLE := Spec(0, Plain, false, {Start, Stop}, false)

  /**
   * A start step that is launched but not yet called when its stop step is checked gets no stop: launching is not
   * enough, it must have been recorded.
   */
  lemma LaunchedStartNotStopped() returns (s: State)
    ensures Reachable(s) && |s.tasks| == 1 && Stop in s.tasks[0].has
    ensures CheckE(0, Start) in s.hist && CheckE(0, Stop) in s.hist
    ensures s.tasks[0].start == Ready && s.tasks[0].stop == Idle
  {
    hide Reachable, DoProceed, CheckTask, InvalidOrder, Enabled, Apply;
    var task := NewTask(STOPPABLE);
    assert Start in [STOPPABLE][0].steps;
    s := Boot(QUIET, [STOPPABLE]);
    assert s.tasks == [task];
    ChecksRecord(task);
    s := CheckOnly(s, task);
    task := task.(log := [Setup]);
    s := Forward(s);
    ChecksRecord(task);
    s := CheckOnly(s, task);
    s := StartReady(s, task.(start := Launched));
    task := task.(start := Ready);
    s := StartedAll(s);
    s := AskToEnd(s);
    ChecksRecord(task);
    s := CheckOnly(s, task);
  }

  lemma StartReady(s: State, task: Task) returns (s': State)
    requires Reachable(s) && ValidConfig(s.cfg) && s.tasks == [task] && task.start == Launched && !task.ssm
    ensures Reachable(s') && s' == s.(tasks := [task.(start := Ready)])
  {
    hide Reachable;
    s' := Next(s, Prepare(0, Start));
    assert s'.tasks == [task.(start := Ready)];
  }

  lemma StartCalled(s: State, task: Task) returns (s': State)
    requires Reachable(s) && ValidConfig(s.cfg) && s.tasks == [task] && task.start == Ready && Start in task.has
    requires task.got == []
    ensures Reachable(s')
    ensures s' == s.(tasks := [task.(start := Calling, log := task.log + [Start], got := [Reading(Start, task.data)])],
                     hist := s.hist + [CallE(0, Start)])
  {
    hide Reachable;
    s' := Next(s, Begin(0, Start));
    assert [] + [Reading(Start, task.data)] == [Reading(Start, task.data)];
    assert s'.tasks == [BeginTask(task, Start)];
  }

  /** A waiting run is asked to end, and begins its shutdown. */
  lemma AskToEnd(s: State) returns (s': State)
    requires Reachable(s) && s.cfg.stages == 1 && s.pc.Selecting? && s.reg == Registry(None, [], None, 0)
    requires s.ctx == Contexts(None, true, None, [], None, None, None) && s.failed == None
    ensures Reachable(s') && s'.pc == Scan(Stop, 0, 0) && s'.tasks == s.tasks && s'.hist == s.hist && s'.cfg == s.cfg
  {
    hide Reachable;
    s' := Next(s, Enter(Shutdown));
    s' := Next(s', Release);
    hide Enabled, Apply;
    s' := Chosen(s');
  }

  lemma Chosen(s: State) returns (s': State)
    requires Reachable(s) && s.cfg.stages == 1 && s.pc.Selecting? && s.ctx.startup.Some? && s.ctx.base == None
    ensures Reachable(s') && s' == DoSelect(s, false)
  {
    hide Reachable;
    s' := Next(s, Select(false));
  }

  const UNSET := Spec(0, Instance, false, {Setup, Start}, false)

  /**
   * When the error handler may hide the error of a setup, a start step may be called without any data, in a run of
   * any configuration.
   */
  lemma HiddenErrorLosesData(cfg: Config) returns (s: State)
    requires ValidConfig(cfg) && cfg.errorHandler == AnyHandler
    ensures Reachable(s) && s.cfg == cfg && |s.tasks| == 1 && CallE(0, Start) in s.hist
    ensures s.tasks[0].spec.kind == Instance && s.tasks[0].start == Calling && s.tasks[0].got == [Reading(Start, None)]
  {
    hide Reachable, DoProceed, CheckTask, InvalidOrder;
    var task := NewTask(UNSET);
    assert Start in [UNSET][0].steps;
    s := Boot(cfg, [UNSET]);
    assert s.tasks == [task];
    ChecksRecord(task);
    s := CheckOnly(s, task);
    s := SetUp(s, 0, Outcome(Some(User(0)), None, None, {Setup, Start}, false));
    task := task.(setup := Finished(None), log := [Setup]);
    assert s.tasks == [task] by { assert [] + [Setup] == [Setup]; }
    s := Forward(s);
    ChecksRecord(task);
    s := CheckOnly(s, task);
    s := StartReady(s, task.(start := Launched));
    s := StartCalled(s, task.(start := Ready));
  }

  /** Every call of an instance task but its setup was given data. */
  predicate DataGiven(s: State) {
    forall t, step: Step ::
      0 <= t < |s.tasks| && s.tasks[t].spec.kind != Plain && step != Setup && CallE(t, step) in s.hist ==>
        ReadData(s.tasks[t], step)
  }

  /** The call of the step read the data of the task, which is there. */
  predicate ReadData(task: Task, step: Step) {
    && task.data.Some? && Reading(step, task.data) in task.got
    && forall i :: 0 <= i < |task.got| ==> task.got[i].data == task.data
  }

  ghost predicate AlwaysGivesData(cfg: Config) {
    forall s :: Reachable(s) && s.cfg == cfg ==> DataGiven(s)
  }

  /** All runs of a configuration give the steps their data if and only if no handler may hide the error of a setup. */
  lemma AlwaysGivesDataIff(cfg: Config)
    requires ValidConfig(cfg)
    ensures AlwaysGivesData(cfg) <==> cfg.errorHandler != AnyHandler
  {
    hide Reachable;
    if cfg.errorHandler != AnyHandler {
      forall s, t, step: Step | Reachable(s) && s.cfg == cfg && 0 <= t < |s.tasks| && s.tasks[t].spec.kind != Plain
                                && step != Setup && CallE(t, step) in s.hist
        ensures ReadData(s.tasks[t], step)
      {
        DataGuarantees.InstanceData(s, t, step);
      }
    } else {
      var s := HiddenErrorLosesData(cfg);
      assert CallE(0, Start) in s.hist;
      assert Reading(Start, None) in s.tasks[0].got;
    }
  }

  const FAILING := Spec(0, Plain, false, {Setup}, false)
  const START_ONLY := Spec(0, Plain, true, {Start}, false)

  lemma CheckBoth(s: State, x: Task, y: Task) returns (s': State)
    requires Reachable(s) && ValidConfig(s.cfg) && s.tasks == [x, y] && s.pc.Scan? && s.pc.next == 0
    requires x.spec.stage == s.pc.stage && !InvalidOrder(x, s.pc.step)
    requires y.spec.stage == s.pc.stage && !InvalidOrder(y, s.pc.step)
    ensures Reachable(s')
    ensures s' == s.(pc := Scan(s.pc.step, s.pc.stage, 2), tasks := [CheckTask(x, s.pc.step), CheckTask(y, s.pc.step)],
                     hist := s.hist + [CheckE(0, s.pc.step), CheckE(1, s.pc.step)])
  {
    hide Reachable, CheckTask, InvalidOrder;
    s' := CheckOne(s);
    assert s'.tasks == [CheckTask(x, s.pc.step), y];
    s' := CheckOne(s');
    assert s'.tasks == [CheckTask(x, s.pc.step), CheckTask(y, s.pc.step)];
  }

  lemma ShutdownRecords(x: Task, y: Task)
    requires x.log == [] && !x.ssm
    requires y.log == [Setup] && !y.ssm && Stop !in y.has && Teardown !in y.has && Start in y.has
    ensures CheckTask(x, Stop) == CheckTask(x, Teardown) == x && !InvalidOrder(x, Stop) && !InvalidOrder(x, Teardown)
    ensures CheckTask(y, Stop) == y && !InvalidOrder(y, Stop) && !InvalidOrder(y, Teardown)
    ensures CheckTask(y, Teardown) == y.(log := [Setup, Teardown])
  {
    assert [Setup] + [Teardown] == [Setup, Teardown];
  }

  /** The setup of the first of two tasks fails. */
  lemma FailSetup(e: Err) returns (s: State)
    requires Ordinary(e)
    ensures Reachable(s) && s.cfg == QUIET && s.pc == Scan(Setup, 0, 2)
    ensures s.tasks == [NewTask(FAILING).(setup := Finished(Some(e))), NewTask(START_ONLY).(log := [Setup])]
    ensures s.setupErrs == [InitializationError(e)] && s.ctx.startup.Some? && s.ctx.base == None && s.errs == []
    ensures s.hist == [CheckE(0, Setup), CheckE(1, Setup), CallE(0, Setup), ReturnE(0, Setup)]
  {
    hide Reachable, CheckTask, InvalidOrder;
    var x, y := NewTask(FAILING), NewTask(START_ONLY);
    assert Start in [FAILING, START_ONLY][1].steps;
    s := Boot(QUIET, [FAILING, START_ONLY]);
    assert s.tasks == [x, y];
    ChecksRecord(x);
    ChecksRecord(y);
    s := CheckBoth(s, x, y);
    s := SetUp(s, 0, Outcome(Some(e), Some(e), None, {Setup}, false));
  }

  /** From the failed stage to the end of the run. */
  lemma EndFailed(s: State, x: Task, y: Task) returns (s': State)
    requires Reachable(s) && s.cfg == QUIET && s.pc == Scan(Setup, 0, 2) && s.tasks == [x, y]
    requires s.setupErrs != [] && s.ctx.startup.Some? && s.ctx.base == None
    requires StageQuiet(s, Setup, 0)
    ensures Reachable(s') && s'.pc == Scan(Stop, 0, 0) && s'.tasks == [x, y] && s'.cfg == QUIET && s'.hist == s.hist
    ensures s'.cause == BuildErrors(s.setupErrs) && s'.ctx.shut == None && s'.errs == s.errs
  {
    hide Reachable, StageQuiet;
    s' := Leave(s);
    s' := Next(s', Notify);
    hide Enabled, Apply;
    s' := Chosen(s');
  }

  lemma StopNothing(s: State, x: Task, y: Task) returns (s': State)
    requires Reachable(s) && s.cfg == QUIET && s.pc == Scan(Stop, 0, 2) && s.tasks == [x, y] && s.ctx.shut == None
    requires !Live(x.stop) && !Live(y.stop) && !Live(x.start) && !Live(y.start)
    ensures Reachable(s') && s' == s.(pc := Scan(Teardown, 0, 0), clock := s'.clock, ctx := s.ctx.(down := None))
  {
    hide Reachable, Enabled, Apply;
    s' := Leave(s);
    s' := TurnQuietly(s');
  }

  lemma TurnQuietly(s: State) returns (s': State)
    requires Reachable(s) && s.cfg == QUIET && s.pc.Draining? && AllStartsOver(s) && s.ctx.shut == None
    ensures Reachable(s') && s' == s.(pc := Scan(Teardown, 0, 0), clock := s'.clock, ctx := s.ctx.(down := None))
  {
    hide Reachable, AllStartsOver;
    s' := Next(s, Drained);
    s' := Next(s', Turn);
  }

  lemma TearDownNothing(s: State, x: Task, y: Task) returns (s': State)
    requires Reachable(s) && s.cfg == QUIET && s.pc == Scan(Teardown, 0, 2) && s.tasks == [x, y]
    requires !Live(x.teardown) && !Live(y.teardown) && s.ctx.shut == None && s.cause.Some?
    ensures Reachable(s') && s'.pc == Done(false) && s'.tasks == s.tasks && s'.hist == s.hist
    ensures s'.out == Some(Result(ExitCause(s.cause.value, BuildErrors(s.errs)), BuildErrors(s.errs)))
  {
    hide Reachable, Enabled, Apply, ExitCause, BuildErrors;
    s' := Leave(s);
    s' := CloseQuietly(s');
  }

  lemma CloseQuietly(s: State) returns (s': State)
    requires Reachable(s) && s.cfg == QUIET && s.pc.Closing? && s.ctx.shut == None && s.cause.Some?
    ensures Reachable(s') && s'.pc == Done(false) && s'.tasks == s.tasks && s'.hist == s.hist
    ensures s'.out == Some(Result(ExitCause(s.cause.value, BuildErrors(s.errs)), BuildErrors(s.errs)))
  {
    hide Reachable, ExitCause, BuildErrors;
    s' := Next(s, Close);
    s' := Next(s', Build);
  }

  /**
   * A task with only a start step in the stage whose setup fails is never called, and is not told either; and a setup
   * that fails with `ErrExit` makes the run return no error.
   */
  lemma StartOnlyNeverTold(e: Err) returns (s: State)
    requires Ordinary(e)
    ensures Reachable(s) && s.pc == Done(false) && |s.tasks| == 2 && s.tasks[1].spec == START_ONLY
    ensures !StageGuarantees.CalledOrTold(s, 1)
    ensures s.out == Some(Result(if Is(e, ErrExit) then None else Some(InitializationError(e)), None))
  {
    hide Reachable, CheckTask, InvalidOrder, ExitCause, Is, StageGuarantees.CalledOrTold;
    var x, y := NewTask(FAILING).(setup := Finished(Some(e))), NewTask(START_ONLY).(log := [Setup]);
    s := FailSetup(e);
    s := EndFailed(s, x, y);
    ShutdownRecords(x, y);
    s := CheckBoth(s, x, y);
    s := StopNothing(s, x, y);
    s := CheckBoth(s, x, y);
    s := TearDownNothing(s, x, y.(log := [Setup, Teardown]));
    NothingOf(s, 1);
    OrdinaryExit(InitializationError(e), []);
    ExitWrapped(e);
  }

  lemma NothingOf(s: State, t: nat)
    requires forall i :: 0 <= i < |s.hist| ==> !(s.hist[i].CallE? && s.hist[i].task == t) && s.hist[i] != SkipE(t)
    ensures !StageGuarantees.CalledOrTold(s, t)
  {
  }

  lemma ExitWrapped(e: Err)
    ensures Is(InitializationError(e), ErrExit) <==> Is(e, ErrExit)
  {
    var parts := [ErrInitialization, e];
    assert parts[1] == e && !Is(parts[0], ErrExit);
  }
}
