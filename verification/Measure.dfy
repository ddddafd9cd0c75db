/** A run makes progress: every move of its own brings it closer to its end. */
module Measure {
  import opened Errors
  import opened Steps
  import opened Lifecycle
  import opened TaskInvariant
  import opened Invariant
  import opened History
  import opened Order

  // ---------- how much is left ----------

  /** How many more moves the goroutine of a step makes at most, its launch included. */
  function PhaseLeft(p: Phase): nat {
    match p
    case Idle => 7
    case Launched => 6
    case Ready => 5
    case Calling => 4
    case Returned(_) => 3
    case Settled(_) => 2
    case Reported(_) => 1
    case Finished(_) => 0
    case Quit => 0
  }

  function TaskLeft(task: Task): nat {
    PhaseLeft(task.setup) + PhaseLeft(task.start) + PhaseLeft(task.stop) + PhaseLeft(task.teardown)
  }

  function TasksLeft(tasks: seq<Task>): nat {
    if tasks == [] then 0 else TasksLeft(tasks[..|tasks| - 1]) + TaskLeft(tasks[|tasks| - 1])
  }

  /** How many more moves a manager with `k` stages and `n` tasks makes at most. */
  function PcLeft(pc: PC, k: nat, n: nat): int {
    var w := n + 2;
    var skipped := 7 + 3 * k * w + n;
    match pc
    case Done(_) => 0
    case Building => 1
    case Closing => 2
    case Await(Teardown, j) => 3 + j * w
    case Scan(Teardown, j, i) => 3 + j * w + (n + 1 - i)
    case Turning => 3 + k * w
    case Draining => 4 + k * w
    case Await(Stop, j) => 5 + k * w + j * w
    case Scan(Stop, j, i) => 5 + k * w + j * w + (n + 1 - i)
    case Selecting => 5 + 2 * k * w
    case Skipping(j, i, _) => 6 + 2 * k * w + (k - j) * w + (n + 1 - i)
    case Await(Start, j) => skipped + 1 + (k - 1 - j) * 2 * w
    case Scan(Start, j, i) => skipped + 1 + (k - 1 - j) * 2 * w + (n + 1 - i)
    case Await(Setup, j) => skipped + 1 + (k - 1 - j) * 2 * w + w
    case Scan(Setup, j, i) => skipped + 1 + (k - 1 - j) * 2 * w + w + (n + 1 - i)
    case Applying => skipped + 1 + 2 * k * w
    case Publishing => skipped + 2 + 2 * k * w
    case Hooking => skipped + 3 + 2 * k * w
    case Claimed => skipped + 4 + 2 * k * w
    case Fresh => skipped + 5 + 2 * k * w
  }

  function Left(s: State): int { PcLeft(s.pc, s.cfg.stages, |s.tasks|) + TasksLeft(s.tasks) }

  /** The moves a run makes by itself: the manager's, the goroutines', and the returns of the tasks they call. */
  predicate Own(a: Action) { IsManager(a) || IsGoroutine(a) || a.TaskReturn? }

  // ---------- each move leaves less ----------

  lemma {:induction false} LeftUpdate(tasks: seq<Task>, t: nat, task: Task)
    requires t < |tasks|
    ensures TasksLeft(tasks[t := task]) == TasksLeft(tasks) - TaskLeft(tasks[t]) + TaskLeft(task)
    decreases |tasks|
  {
    var n := |tasks| - 1;
    if t == n {
      assert tasks[t := task][..n] == tasks[..n];
    } else {
      assert tasks[t := task][..n] == tasks[..n][t := task];
      LeftUpdate(tasks[..n], t, task);
    }
  }

  lemma StepLeft(task: Task, task': Task, step: Step)
    requires forall u :: u != step ==> PhaseOf(task', u) == PhaseOf(task, u)
    ensures TaskLeft(task') - TaskLeft(task) == PhaseLeft(PhaseOf(task', step)) - PhaseLeft(PhaseOf(task, step))
  {
    assert PhaseOf(task, Setup) == task.setup && PhaseOf(task', Setup) == task'.setup;
    assert PhaseOf(task, Start) == task.start && PhaseOf(task', Start) == task'.start;
    assert PhaseOf(task, Stop) == task.stop && PhaseOf(task', Stop) == task'.stop;
    assert PhaseOf(task, Teardown) == task.teardown && PhaseOf(task', Teardown) == task'.teardown;
  }

  lemma MoveLeft(s: State, a: Action)
    requires ValidConfig(s.cfg) && Enabled(s, a) && (IsGoroutine(a) || a.TaskReturn?)
    ensures Left(Apply(s, a)) < Left(s)
  {
    hide PrepareTask, BeginTask, ReturnTask, SettleTask, WithPhase, Plausible, DoReport, PcLeft, TasksLeft, TaskLeft;
    var s', t, step := Apply(s, a), a.task, a.step;
    match a {
      case Prepare(_, _) => PreparePhases(s.tasks[t], step);
      case Begin(_, _) => BeginPhases(s.tasks[t], step);
      case TaskReturn(_, _, out) => ReturnPhases(s.tasks[t], step, out);
      case Settle(_, _) => SettlePhases(s.tasks[t], step);
      case Report(_, _) =>
        ReportShape(s, t, step);
        ReportConfig(s, t, step);
        PhasePhases(s.tasks[t], step, Reported(PhaseOf(s.tasks[t], step).err));
      case Exit(_, _) => PhasePhases(s.tasks[t], step, Finished(PhaseOf(s.tasks[t], step).err));
    }
    StepLeft(s.tasks[t], s'.tasks[t], step);
    LeftUpdate(s.tasks, t, s'.tasks[t]);
  }

  lemma ReportConfig(s: State, t: nat, step: Step)
    requires t < |s.tasks| && PhaseOf(s.tasks[t], step).Settled?
    ensures DoReport(s, t, step).cfg == s.cfg
  {
    hide WithPhase, Flat;
  }

  /** One turn of a loop over the stages takes more than one loop over the tasks. */
  lemma Times(a: int, w: int)
    ensures (a + 1) * w == a * w + w && (a - 1) * w == a * w - w
  {
  }

  lemma BackwardLeft(k: nat, n: nat, j: nat)
    requires 0 < j < k
    ensures PcLeft(Scan(Stop, j - 1, 0), k, n) < PcLeft(Await(Stop, j), k, n)
    ensures PcLeft(Scan(Teardown, j - 1, 0), k, n) < PcLeft(Await(Teardown, j), k, n)
  {
    Times(j, n + 2);
  }

  lemma TurnLeft(k: nat, n: nat)
    requires 0 < k
    ensures PcLeft(Scan(Stop, k - 1, 0), k, n) < PcLeft(Selecting, k, n)
    ensures PcLeft(Scan(Teardown, k - 1, 0), k, n) < PcLeft(Turning, k, n)
    ensures PcLeft(Draining, k, n) < PcLeft(Await(Stop, 0), k, n)
    ensures PcLeft(Turning, k, n) < PcLeft(Draining, k, n)
    ensures PcLeft(Closing, k, n) < PcLeft(Await(Teardown, 0), k, n)
  {
    Times(k, n + 2);
  }

  lemma SkipLeft(k: nat, n: nat, j: nat, i: nat, early: bool)
    requires j <= k && i <= n
    ensures i < n ==> PcLeft(Skipping(j, i + 1, early), k, n) < PcLeft(Skipping(j, i, early), k, n)
    ensures j < k && i == n ==> PcLeft(Skipping(j + 1, 0, early), k, n) < PcLeft(Skipping(j, i, early), k, n)
    ensures j == k ==> PcLeft(Selecting, k, n) < PcLeft(Skipping(j, i, early), k, n)
    ensures 0 <= PcLeft(Skipping(j, i, early), k, n) <= 7 + 3 * k * (n + 2) + n
  {
    Times(k - j, n + 2);
    assert 0 <= (k - j) * (n + 2) <= k * (n + 2);
    assert 0 <= k * (n + 2);
  }

  lemma ForwardLeft(k: nat, n: nat, j: nat)
    requires j < k
    ensures j + 1 < k ==> PcLeft(Scan(Setup, j + 1, 0), k, n) < PcLeft(Await(Start, j), k, n)
    ensures PcLeft(Scan(Start, j, 0), k, n) < PcLeft(Await(Setup, j), k, n)
    ensures PcLeft(Skipping(j + 1, 0, false), k, n) < PcLeft(Await(Start, j), k, n)
    ensures PcLeft(Skipping(j + 1, 0, false), k, n) < PcLeft(Await(Setup, j), k, n)
  {
    var w := n + 2;
    Times(k - 1 - j, 2 * w);
    assert (k - 1 - (j + 1)) * 2 * w == (k - 1 - j) * 2 * w - 2 * w;
    assert 0 <= (k - 1 - j) * 2 * w;
    SkipLeft(k, n, j + 1, 0, false);
  }

  lemma BeforeLeft(k: nat, n: nat)
    requires 0 < k
    ensures PcLeft(Scan(Setup, 0, 0), k, n) < PcLeft(Applying, k, n)
    ensures PcLeft(Skipping(0, 0, true), k, n) < PcLeft(Hooking, k, n)
    ensures PcLeft(Skipping(0, 0, true), k, n) < PcLeft(Claimed, k, n)
  {
    var w := n + 2;
    assert (k - 1 - 0) * 2 * w == 2 * k * w - 2 * w;
    assert 0 <= 2 * k * w;
    SkipLeft(k, n, 0, 0, true);
  }

  lemma CheckTaskLeft(task: Task, step: Step)
    requires PhaseOf(task, step) == Idle
    ensures TaskLeft(CheckTask(task, step)) <= TaskLeft(task)
  {
  }

  lemma ScanLeft(k: nat, n: nat, step: Step, j: nat, i: nat)
    ensures PcLeft(Scan(step, j, i + 1), k, n) == PcLeft(Scan(step, j, i), k, n) - 1
  {
    match step { case Setup => case Start => case Stop => case Teardown => }
  }

  lemma CheckLeft(s: State)
    requires Inv(s) && s.pc.Scan? && s.pc.next < |s.tasks|
    ensures Left(DoCheckNext(s)) < Left(s)
  {
    hide Inv, DoCheckNext, CheckTask, TasksLeft, TaskLeft, PcLeft;
    CheckShape(s);
    ScanLeft(s.cfg.stages, |s.tasks|, s.pc.step, s.pc.stage, s.pc.next);
    if InStage(s, s.pc.stage, s.pc.next) {
      CheckNotCalled(s);
      CheckTaskLeft(s.tasks[s.pc.next], s.pc.step);
      LeftUpdate(s.tasks, s.pc.next, CheckTask(s.tasks[s.pc.next], s.pc.step));
    }
  }

  lemma SkipTaskLeft(task: Task, cause: Option<Err>)
    ensures TaskLeft(SkipTask(task, cause)) == TaskLeft(task)
  {
  }

  lemma NotifyLeft(s: State)
    requires PcOK(s) && s.pc.Skipping?
    ensures Left(DoNotify(s)) < Left(s)
  {
    hide PcLeft, SkipTask, TasksLeft, TaskLeft;
    var t := s.pc.next;
    SkipLeft(s.cfg.stages, |s.tasks|, s.pc.stage, t, s.pc.early);
    if t < |s.tasks| {
      SkipTaskLeft(s.tasks[t], SkipCause(s, s.pc.early));
      LeftUpdate(s.tasks, t, SkipTask(s.tasks[t], SkipCause(s, s.pc.early)));
    }
    DoneLeft(s.cfg.stages, |s.tasks|);
  }

  lemma DoneLeft(k: nat, n: nat)
    ensures PcLeft(Done(true), k, n) == 0 && PcLeft(Done(false), k, n) == 0
    ensures PcLeft(Selecting, k, n) > 0
  {
    assert 0 <= 2 * k * (n + 2);
  }

  lemma ProceedLeft(s: State)
    requires PcOK(s) && s.pc.Await? && ValidConfig(s.cfg)
    ensures Left(DoProceed(s)) < Left(s)
  {
    hide PcLeft, TasksLeft, BuildErrors;
    var k, n, j := s.cfg.stages, |s.tasks|, s.pc.stage;
    TurnLeft(k, n);
    ForwardLeft(k, n, j);
    if j > 0 { BackwardLeft(k, n, j); }
  }

  lemma NextLeft(k: nat, n: nat, step: Step, j: nat)
    ensures PcLeft(Await(step, j), k, n) < PcLeft(Scan(step, j, n), k, n)
    ensures PcLeft(Hooking, k, n) < PcLeft(Claimed, k, n)
    ensures PcLeft(Publishing, k, n) < PcLeft(Hooking, k, n)
    ensures PcLeft(Applying, k, n) < PcLeft(Publishing, k, n)
    ensures PcLeft(Done(false), k, n) < PcLeft(Building, k, n) < PcLeft(Closing, k, n)
  {
    match step { case Setup => case Start => case Stop => case Teardown => }
  }

  lemma StartingLeft(s: State, a: Action)
    requires PcOK(s) && ValidConfig(s.cfg) && Enabled(s, a)
    requires a.ReadRegistry? || a.RunHooks? || a.Publish? || a.ApplyPending?
    ensures Left(Apply(s, a)) < Left(s)
  {
    hide PcOK, PcLeft, TasksLeft, OrdinaryOpt, HasStartTask;
    BeforeLeft(s.cfg.stages, |s.tasks|);
    NextLeft(s.cfg.stages, |s.tasks|, Setup, 0);
  }

  lemma EndingLeft(s: State, a: Action)
    requires PcOK(s) && ValidConfig(s.cfg) && Enabled(s, a)
    requires a.EndScan? || a.Select? || a.Drained? || a.Turn? || a.Close? || a.Build?
    ensures Left(Apply(s, a)) < Left(s)
  {
    hide PcOK, PcLeft, TasksLeft, BuildErrors, Flat, TimeoutError, ExitCause, AllStartsOver;
    TurnLeft(s.cfg.stages, |s.tasks|);
    if s.pc.Scan? {
      NextLeft(s.cfg.stages, |s.tasks|, s.pc.step, s.pc.stage);
    } else {
      NextLeft(s.cfg.stages, |s.tasks|, Setup, 0);
    }
  }

  lemma OtherLeft(s: State, a: Action)
    requires PcOK(s) && ValidConfig(s.cfg) && Enabled(s, a) && IsManager(a)
    requires !a.CheckNext? && !a.Notify? && !a.Proceed?
    ensures Left(Apply(s, a)) < Left(s)
  {
    hide PcOK, ValidConfig, Enabled, Apply, Left;
    if a.ReadRegistry? || a.RunHooks? || a.Publish? || a.ApplyPending? {
      StartingLeft(s, a);
    } else {
      EndingLeft(s, a);
    }
  }

  /** Every move of its own brings a run closer to its end; no other action takes it further away. */
  lemma StepBrings(s: State, a: Action)
    requires Inv(s) && ValidConfig(s.cfg) && Enabled(s, a)
    ensures Own(a) ==> Left(Apply(s, a)) < Left(s)
    ensures !Own(a) && !s.pc.Fresh? && !s.pc.Claimed? ==> Left(Apply(s, a)) == Left(s)
  {
    assert PcOK(s) && LockOK(s) by { hide TasksOK; }
    hide Inv, PcOK, Left;
    if IsGoroutine(a) || a.TaskReturn? { hide Apply, Enabled; MoveLeft(s, a); }
    else if a.CheckNext? { CheckLeft(s); }
    else if a.Notify? { NotifyLeft(s); }
    else if a.Proceed? { ProceedLeft(s); }
    else if IsManager(a) { hide Apply, Enabled; OtherLeft(s, a); }
    else if !s.pc.Fresh? && !s.pc.Claimed? { hide Apply, Enabled; CallerLeft(s, a); }
  }

  lemma CallerLeft(s: State, a: Action)
    requires LockOK(s) && ValidConfig(s.cfg) && Enabled(s, a) && !Own(a) && !s.pc.Fresh? && !s.pc.Claimed?
    ensures Left(Apply(s, a)) == Left(s)
  {
    hide PcLeft, TasksLeft, TickClock, EndShut, EndDown, Serve;
    if a.Tick? { TickShape(s); }
    if a.CancelBase? { EndShape(s.(ctx := s.ctx.(base := Some(a.cause))), a.cause); }
    if a.Release? { ServeShape(s.(reg := s.reg.(lock := None)), s.reg.lock.value); }
  }

  lemma LeftPositive(s: State)
    requires PcOK(s)
    ensures Left(s) >= 0
  {
    var k, n := s.cfg.stages, |s.tasks|;
    var w := n + 2;
    assert 0 <= k * w && 0 <= 2 * k * w && 0 <= 3 * k * w;
    if s.pc.Skipping? {
      SkipLeft(k, n, s.pc.stage, s.pc.next, s.pc.early);
    } else if s.pc.Scan? || s.pc.Await? {
      var j := s.pc.stage;
      assert 0 <= j * w && 0 <= (k - 1 - j) * 2 * w;
    }
  }

  /** How many of the actions are the run's own moves. */
  function OwnMoves(acts: seq<Action>): nat {
    if acts == [] then 0 else (if Own(acts[0]) then 1 else 0) + OwnMoves(acts[1..])
  }

  lemma {:induction false} OwnMovesBounded(s: State, acts: seq<Action>, s': State)
    requires Inv(s) && !s.pc.Fresh? && !s.pc.Claimed? && Path(s, acts, s')
    ensures OwnMoves(acts) <= Left(s) - Left(s')
    decreases |acts|
  {
    hide Inv, Apply, Enabled, Left;
    if acts != [] {
      StepInv(s, acts[0]);
      StepBrings(s, acts[0]);
      NeverBack(s, acts[0]);
      OwnMovesBounded(Apply(s, acts[0]), acts[1..], s');
    }
  }

  lemma NeverBack(s: State, a: Action)
    requires ValidConfig(s.cfg) && Enabled(s, a) && !s.pc.Fresh? && !s.pc.Claimed? && Inv(s)
    ensures !Apply(s, a).pc.Fresh? && !Apply(s, a).pc.Claimed?
  {
    hide Inv;
    if IsManager(a) {
      hide DoCheckNext, MayProceed, Flat, SkipTask, BuildErrors, ExitCause;
      if a.CheckNext? { CheckShape(s); }
    } else {
      hide Apply, Enabled;
      BystanderShape(s, a);
    }
  }
}
