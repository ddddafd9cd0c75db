/**
 * The lifecycle manager as a transition system. One manager thread walks the stages forward and backward, each
 * launched task step is a goroutine of its own, and callers of the manager act at any time. A state records where
 * each of them is; an action is one atomic move of one of them.
 */
module Lifecycle {
  import opened Errors
  import opened Steps

  // ---------- tasks ----------

  type Data = int

  /** What a task is made of: an instance task keeps the data of its setup, a future task also resolves a future. */
  datatype Kind = Plain | Instance | Future

  datatype Spec = Spec(stage: nat, kind: Kind, skippable: bool, steps: set<Step>, ssm: bool)

  /** Where the goroutine of one step of one task is. */
  datatype Phase =
    | Idle                            // never launched
    | Launched                        // counted in the wait group
    | Ready                           // the start step manager fields are set, the start signal is given
    | Calling                         // inside the task's own code
    | Returned(err: Option<Err>)      // the task's code returned
    | Settled(err: Option<Err>)       // a good setup is recorded, a start step is marked as finished
    | Reported(err: Option<Err>)      // the manager's error callback ran
    | Finished(err: Option<Err>)      // left the wait group
    | Quit                            // left the wait group without running the step

  datatype Finish = NoFinish | Running | Ended(err: Option<Err>)

  datatype Handles = Handles(cancel: bool, finish: bool)

  /** A value, or an error, given to a future. */
  datatype Resolution = Value(data: Data) | Failure(err: Err)

  /** A step of an instance task read the task's data. */
  datatype Reading = Reading(step: Step, data: Option<Data>)

  datatype Task = Task(
    spec: Spec,
    has: set<Step>,                   // the steps the task has now
    ssm: bool,                        // whether the start step manager option is set now
    log: seq<Step>,                   // the steps done
    setup: Phase,
    start: Phase,
    stop: Phase,
    teardown: Phase,
    cancel: bool,                     // the start step's cancel function is set
    finish: Finish,                   // the context that ends when the start step does
    saw: Option<Handles>,             // what the stop step was given
    data: Option<Data>,               // the data of an instance task
    got: seq<Reading>,                // the data the later steps read when they were called
    cell: seq<Resolution>,            // every resolution of the task's future, in order
    told: seq<Option<Err>>            // the reason of every call of its skipped callback, in order
  )

  function NewTask(spec: Spec): Task {
    Task(spec, spec.steps, spec.ssm, [], Idle, Idle, Idle, Idle, false, NoFinish, None, None, [], [], [])
  }

  function PhaseOf(task: Task, step: Step): Phase {
    match step
    case Setup => task.setup
    case Start => task.start
    case Stop => task.stop
    case Teardown => task.teardown
  }

  function WithPhase(task: Task, step: Step, phase: Phase): Task {
    match step
    case Setup => task.(setup := phase)
    case Start => task.(start := phase)
    case Stop => task.(stop := phase)
    case Teardown => task.(teardown := phase)
  }

  /** The goroutine is in its wait group. */
  predicate Live(p: Phase) { !p.Idle? && !p.Finished? && !p.Quit? }

  /** The task's own code was entered. */
  predicate Called(p: Phase) { p.Calling? || Over(p) }

  /** The task's own code returned. */
  predicate Over(p: Phase) { p.Returned? || p.Settled? || p.Reported? || p.Finished? }

  predicate OverWith(p: Phase, err: Option<Err>) { Over(p) && p.err == err }

  // ---------- the goroutine of a step ----------

  function PrepareTask(task: Task, step: Step): Task {
    var ready := WithPhase(task, step, Ready);
    if step == Start && task.ssm then ready.(cancel := true, finish := Running)
    else if step == Stop && task.ssm then
      ready.(saw := Some(Handles(task.cancel, !task.finish.NoFinish?)))
    else ready
  }

  /** Every step but setup is recorded before the task is called. */
  function BeginTask(task: Task, step: Step): Task {
    if step !in task.has then
      var quit := WithPhase(task, step, Quit);
      if step == Start && task.finish == Running then quit.(finish := Ended(None)) else quit
    else if step == Setup then WithPhase(task, step, Calling)
    else WithPhase(task, step, Calling).(log := task.log + [step], got := task.got + [Reading(step, task.data)])
  }

  /**
   * What a call of the task returned: the error of the task, the error after the manager's error handler, the
   * data made by a setup function, and what the steps and options of the task are from now on.
   */
  datatype Outcome = Outcome(raw: Option<Err>, err: Option<Err>, made: Option<Data>, has: set<Step>, ssm: bool)

  /** The setup function is not called again when there is data already. */
  predicate Remade(task: Task, step: Step) { step == Setup && task.spec.kind != Plain && task.data.Some? }

  predicate Plausible(cfg: Config, task: Task, step: Step, out: Outcome) {
    && OrdinaryOpt(out.raw) && OrdinaryOpt(out.err)
    && (cfg.errorHandler == NoHandler ==> out.err == out.raw)
    && (cfg.errorHandler != AnyHandler && step == Setup && out.raw.Some? ==> out.err.Some?)
    && (step != Setup || Remade(task, step) ==> out.has == task.has && out.ssm == task.ssm && out.made == None)
    && (cfg.keepsStart && Start in task.has ==> Start in out.has)
    && (task.spec.kind == Plain ==> out.made == None)
    && (Remade(task, step) ==> out.raw == Some(ErrAlreadyInitialized))
    && (step == Setup && task.spec.kind != Plain && out.made == None ==> out.raw.Some?)
  }

  function ReturnTask(task: Task, step: Step, out: Outcome): Task {
    var back := WithPhase(task, step, Returned(out.err)).(has := out.has, ssm := out.ssm);
    if step != Setup || task.spec.kind == Plain || task.data.Some? then back
    else
      var made := if out.made.Some? then back.(data := out.made) else back;
      if task.spec.kind != Future then made
      else if out.made.Some? then made.(cell := task.cell + [Value(out.made.value)])
      else if out.raw.Some? then made.(cell := task.cell + [Failure(out.raw.value)])
      else made
  }

  function SettleTask(task: Task, step: Step): Task
    requires PhaseOf(task, step).Returned?
  {
    var err := PhaseOf(task, step).err;
    var settled := WithPhase(task, step, Settled(err));
    if step == Setup && err == None then settled.(log := task.log + [Setup])
    else if step == Start && task.finish == Running then settled.(finish := Ended(err))
    else settled
  }

  function SkippedError(cause: Option<Err>): Err {
    match cause
    case None => ErrTaskSkipped
    case Some(err) => Wrapped([ErrTaskSkipped, err])
  }

  /** The skipped callback is given the reason; that of a future resolves it, unless it already is. */
  function SkipTask(task: Task, cause: Option<Err>): Task {
    var told := task.(told := task.told + [cause]);
    if task.spec.kind == Future && task.cell == [] then told.(cell := [Failure(SkippedError(cause))]) else told
  }

  // ---------- the manager ----------

  /** What the manager's error handler does with the errors of the tasks. */
  datatype ErrorHandler =
    | NoHandler                       // they stay as they are
    | KeepsFailures                   // they may change, but a setup that failed still failed
    | AnyHandler                      // they may change in any way

  datatype Config = Config(
    stages: nat,                      // how many stages there are
    enforce: bool,                    // give up waiting when the shutdown context ends
    shutdownTimeout: nat,             // 0: none
    teardownTimeout: nat,             // 0: none
    errorHandler: ErrorHandler,
    beforeRun: bool,                  // there are callbacks that may fail before the stages run
    ownBase: bool,                    // the caller gave a base context for the shutdown
    keepsStart: bool                  // no setup takes the start step away from its task
  )

  predicate ValidConfig(cfg: Config) { 0 < cfg.stages }

  /** Where the manager thread is. */
  datatype PC =
    | Fresh                           // Run was not called
    | Claimed                         // the running flag is set
    | Hooking                         // tasks and initialization errors were read
    | Publishing                      // about to create the contexts
    | Applying                        // about to apply a cancel requested before the contexts existed
    | Scan(step: Step, stage: nat, next: nat)     // checking the tasks of a stage, one after the other
    | Await(step: Step, stage: nat)               // waiting for the launched steps of the stage
    | Skipping(stage: nat, next: nat, early: bool)   // notifying tasks that will never run
    | Selecting                       // waiting for the first task to return
    | Draining                        // waiting for all start steps
    | Turning                         // between stop and teardown
    | Closing                         // after the last teardown
    | Building                        // about to build the errors
    | Done(early: bool)

  datatype AddRequest = NilTask | BadTask(err: Err) | BadStage | GoodTask(spec: Spec)

  datatype Request = AddTask(add: AddRequest) | AddInitError(err: Err) | Shutdown

  /** A caller inside the mutex, with the running flag it read after taking it. */
  datatype Holder = Holder(request: Request, sawRunning: bool)

  datatype Registry = Registry(
    lock: Option<Holder>,
    initErrors: seq<Err>,
    pending: Option<Cancel>,          // the first cancel requested before the contexts existed
    requests: nat                     // how many cancels were requested
  )

  /** Who called the cancel function of the startup context: the error callback of a step, or a request. */
  datatype Origin = FromTask(task: nat, step: Step) | FromRequest(request: Request)

  datatype Cancel = Cancel(origin: Origin, cause: Err)

  /** The contexts, each with the cause it ended with. */
  datatype Contexts = Contexts(
    caller: Option<Err>,
    published: bool,
    startup: Option<Err>,
    cancels: seq<Cancel>,             // every call of the startup context's cancel function, in order
    base: Option<Err>,                // base of the shutdown context
    shut: Option<Err>,                // shutdown context
    down: Option<Err>                 // teardown context, when it has its own timeout
  )

  datatype Clock = Clock(now: nat, shutAt: nat, turnAt: nat, closeAt: nat)

  datatype Result = Result(cause: Option<Err>, stopErr: Option<Err>)

  /** What can be seen of a run, in the order it happened. */
  datatype Event =
    | CheckE(task: nat, step: Step)   // the manager checked the step of the task
    | CallE(task: nat, step: Step)    // the task was called with the step
    | ReturnE(task: nat, step: Step)  // that call returned
    | SkipE(task: nat)                // the task was told that it will never run
    | ShutE                           // the shutdown context ended

  datatype State = State(
    cfg: Config,
    pc: PC,
    tasks: seq<Task>,
    reg: Registry,
    ctx: Contexts,
    clock: Clock,
    ran: nat,                         // how many stages were entered
    setupErrs: seq<Err>,              // setup failures of the stage entered last
    failed: Option<Err>,              // the error the setups of a stage failed with
    cause: Option<Err>,               // why the run ends
    errs: seq<Err>,                   // errors collected while shutting down
    ownErrs: seq<Err>,                // the part of them that the manager itself added
    built: nat,                       // how many of them the run returned
    out: Option<Result>,
    hist: seq<Event>
  )

  function Init(cfg: Config): State {
    State(cfg, Fresh, [], Registry(None, [], None, 0), Contexts(None, false, None, [], None, None, None),
          Clock(0, 0, 0, 0), 0, [], None, None, [], [], 0, None, [])
  }

  predicate IsRunning(s: State) { s.pc != Fresh }

  /** How many stages had their start steps launched. */
  function Started(s: State): nat {
    if s.failed.Some? && s.ran > 0 then s.ran - 1 else s.ran
  }

  function CancelStartup(ctx: Contexts, cancel: Cancel): Contexts {
    ctx.(startup := if ctx.startup == None then Some(cancel.cause) else ctx.startup, cancels := ctx.cancels + [cancel])
  }

  /** Cancels the startup context, or leaves the request for when it exists. The first one wins in both cases. */
  function RequestCancel(s: State, request: Request, cause: Err): State {
    var counted := s.reg.(requests := s.reg.requests + 1);
    var cancel := Cancel(FromRequest(request), cause);
    if s.ctx.published then s.(reg := counted, ctx := CancelStartup(s.ctx, cancel))
    else if s.reg.pending == None then s.(reg := counted.(pending := Some(cancel)))
    else s.(reg := counted)
  }

  function RecordInitError(s: State, request: Request, err: Err): State {
    if IsRunning(s) then RequestCancel(s, request, Wrapped([ErrAlreadyRunning, err]))
    else s.(reg := s.reg.(initErrors := s.reg.initErrors + [err]))
  }

  /** What a request does once its caller holds the mutex. */
  function Serve(s: State, holder: Holder): State {
    var request := holder.request;
    match request
    case Shutdown => RequestCancel(s, request, ErrExit)
    case AddInitError(err) => RecordInitError(s, request, err)
    case AddTask(add) =>
      if holder.sawRunning then RequestCancel(s, request, Wrapped([ErrAlreadyRunning]))
      else match add
        case NilTask => RecordInitError(s, request, ErrNilTask)
        case BadTask(err) => RecordInitError(s, request, err)
        case BadStage => RecordInitError(s, request, Wrapped([ErrInvalidStage]))
        case GoodTask(spec) => s.(tasks := s.tasks + [NewTask(spec)])
  }

  /** A start step that ends without an error asks for a normal exit. */
  function ErrorOrExit(err: Option<Err>): Err { if err.Some? then err.value else ErrExit }

  /** The manager's error callback of a step. */
  function OnError(s: State, t: nat, step: Step, err: Option<Err>): State {
    match step
    case Setup =>
      if err == None then s
      else
        var failure := InitializationError(err.value);
        s.(setupErrs := s.setupErrs + Flat(Some(failure)),
           ctx := CancelStartup(s.ctx, Cancel(FromTask(t, Setup), failure)))
    case Start => s.(ctx := CancelStartup(s.ctx, Cancel(FromTask(t, Start), ErrorOrExit(err))))
    case _ => s.(errs := s.errs + Flat(err))
  }

  function AddOwnErr(s: State, err: Err): State {
    s.(errs := s.errs + Flat(Some(err)), ownErrs := s.ownErrs + Flat(Some(err)))
  }

  // ---------- the shutdown clock ----------

  /** The shutdown context exists. */
  predicate ShutOpen(pc: PC) {
    match pc
    case Scan(step, _, _) => step == Stop || step == Teardown
    case Await(step, _) => step == Stop || step == Teardown
    case Draining => true
    case Turning => true
    case Closing => true
    case Building => true
    case _ => false
  }

  /** The teardown context exists, if it has its own timeout. */
  predicate DownOpen(pc: PC) {
    match pc
    case Scan(step, _, _) => step == Teardown
    case Await(step, _) => step == Teardown
    case Closing => true
    case Building => true
    case _ => false
  }

  function EndShut(s: State, cause: Err): State {
    if ShutOpen(s.pc) && s.ctx.shut == None then
      s.(ctx := s.ctx.(shut := Some(cause)), hist := s.hist + [ShutE])
    else s
  }

  function EndDown(s: State, cause: Err): State {
    if DownOpen(s.pc) && s.cfg.teardownTimeout > 0 && s.ctx.down == None then
      s.(ctx := s.ctx.(down := Some(cause)))
    else s
  }

  predicate ShutDue(s: State) {
    s.cfg.shutdownTimeout > 0 && s.clock.now >= s.clock.shutAt + s.cfg.shutdownTimeout
  }

  predicate DownDue(s: State) {
    s.cfg.teardownTimeout > 0 && s.clock.now >= s.clock.turnAt + s.cfg.teardownTimeout
  }

  function TickClock(s: State): State {
    var later := s.(clock := s.clock.(now := s.clock.now + 1));
    var shut := if ShutDue(later) then EndShut(later, DeadlineExceeded) else later;
    if DownDue(later) then EndDown(shut, DeadlineExceeded) else shut
  }

  /** The error a context that ended is reported with. */
  function TimeoutError(cause: Err): Err {
    if Is(cause, DeadlineExceeded) then ErrShutdownTimeout else cause
  }

  // ---------- moves ----------

  datatype Action =
    // of callers, tasks and time
    | CallRun
    | CancelCaller(cause: Err)
    | CancelBase(cause: Err)
    | Tick
    | Enter(request: Request)               // a caller takes the mutex
    | TaskReturn(task: nat, step: Step, out: Outcome)
    // of the caller that holds the mutex
    | Release
    // of the goroutine of a step
    | Prepare(task: nat, step: Step)
    | Begin(task: nat, step: Step)
    | Settle(task: nat, step: Step)
    | Report(task: nat, step: Step)
    | Exit(task: nat, step: Step)
    // of the manager thread
    | ReadRegistry
    | RunHooks(err: Option<Err>)
    | Publish
    | ApplyPending
    | CheckNext
    | EndScan
    | Proceed
    | Notify
    | Select(caller: bool)
    | Drained
    | Turn
    | Close
    | Build

  predicate IsManager(a: Action) {
    || a.ReadRegistry? || a.RunHooks? || a.Publish? || a.ApplyPending? || a.CheckNext? || a.EndScan? || a.Proceed?
    || a.Notify? || a.Select? || a.Drained? || a.Turn? || a.Close? || a.Build?
  }

  predicate IsGoroutine(a: Action) { a.Prepare? || a.Begin? || a.Settle? || a.Report? || a.Exit? }

  predicate ValidRequest(cfg: Config, request: Request) {
    match request
    case Shutdown => true
    case AddInitError(err) => Ordinary(err)
    case AddTask(BadTask(err)) => Ordinary(err)
    case AddTask(GoodTask(spec)) =>
      // a future task is built with a setup step and a skipped callback
      spec.stage < cfg.stages && (spec.kind != Plain ==> Setup in spec.steps) &&
      (spec.kind == Future ==> spec.skippable)
    case _ => true
  }

  predicate InStage(s: State, stage: nat, t: nat) { t < |s.tasks| && s.tasks[t].spec.stage == stage }

  /** The steps launched for a stage all left their wait group. */
  predicate StageQuiet(s: State, step: Step, stage: nat) {
    forall t :: 0 <= t < |s.tasks| && s.tasks[t].spec.stage == stage ==> !Live(PhaseOf(s.tasks[t], step))
  }

  predicate StageSignalled(s: State, stage: nat) {
    forall t :: 0 <= t < |s.tasks| && s.tasks[t].spec.stage == stage ==> s.tasks[t].start != Launched
  }

  predicate AllStartsOver(s: State) {
    forall t :: 0 <= t < |s.tasks| ==> !Live(s.tasks[t].start)
  }

  /** Waiting may be given up. */
  predicate Escaped(s: State) { s.cfg.enforce && s.ctx.shut.Some? }

  predicate MayProceed(s: State, step: Step, stage: nat) {
    match step
    case Setup => StageQuiet(s, Setup, stage)
    case Start => StageSignalled(s, stage)
    case Stop => StageQuiet(s, Stop, stage) || Escaped(s)
    case Teardown => StageQuiet(s, Teardown, stage)
  }

  predicate HasStartTask(s: State) {
    exists t :: 0 <= t < |s.tasks| && Start in s.tasks[t].has
  }

  predicate InPhase(s: State, t: nat, step: Step, phase: Phase) {
    t < |s.tasks| && PhaseOf(s.tasks[t], step) == phase
  }

  predicate Enabled(s: State, a: Action) {
    match a
    case CallRun => s.pc.Fresh?
    case CancelCaller(cause) => Ordinary(cause)
    case CancelBase(cause) => s.cfg.ownBase && Ordinary(cause)
    case Tick => true
    case Enter(request) => s.reg.lock == None && ValidRequest(s.cfg, request)
    case TaskReturn(t, step, out) => InPhase(s, t, step, Calling) && Plausible(s.cfg, s.tasks[t], step, out)
    case Release => s.reg.lock.Some?
    case Prepare(t, step) => InPhase(s, t, step, Launched)
    case Begin(t, step) => InPhase(s, t, step, Ready)
    case Settle(t, step) => t < |s.tasks| && PhaseOf(s.tasks[t], step).Returned?
    case Report(t, step) => t < |s.tasks| && PhaseOf(s.tasks[t], step).Settled?
    case Exit(t, step) => t < |s.tasks| && PhaseOf(s.tasks[t], step).Reported?
    case ReadRegistry => s.pc.Claimed? && s.reg.lock == None
    case RunHooks(err) => s.pc.Hooking? && OrdinaryOpt(err) && (!s.cfg.beforeRun ==> err == None)
    case Publish => s.pc.Publishing? && s.reg.lock == None
    case ApplyPending => s.pc.Applying?
    case CheckNext => s.pc.Scan? && s.pc.next < |s.tasks|
    case EndScan => s.pc.Scan? && s.pc.next == |s.tasks|
    case Proceed => s.pc.Await? && MayProceed(s, s.pc.step, s.pc.stage)
    case Notify => s.pc.Skipping?
    case Select(caller) => s.pc.Selecting? && (if caller then s.ctx.caller.Some? else s.ctx.startup.Some?)
    case Drained => s.pc.Draining? && (AllStartsOver(s) || Escaped(s))
    case Turn => s.pc.Turning?
    case Close => s.pc.Closing?
    case Build => s.pc.Building? && s.cause.Some?
  }

  function DoCancelCaller(s: State, cause: Err): State {
    if s.ctx.caller.Some? then s
    else
      var ctx := s.ctx.(caller := Some(cause));
      s.(ctx := if ctx.published && ctx.startup == None then ctx.(startup := Some(cause)) else ctx)
  }

  function DoCancelBase(s: State, cause: Err): State {
    if s.ctx.base.Some? then s
    else EndDown(EndShut(s.(ctx := s.ctx.(base := Some(cause))), cause), cause)
  }

  function SetTask(s: State, t: nat, task: Task): State
    requires t < |s.tasks|
  {
    s.(tasks := s.tasks[t := task])
  }

  function DoBegin(s: State, t: nat, step: Step): State
    requires t < |s.tasks|
  {
    var begun := SetTask(s, t, BeginTask(s.tasks[t], step));
    if step in s.tasks[t].has then begun.(hist := s.hist + [CallE(t, step)]) else begun
  }

  function DoReturn(s: State, t: nat, step: Step, out: Outcome): State
    requires t < |s.tasks|
  {
    SetTask(s, t, ReturnTask(s.tasks[t], step, out)).(hist := s.hist + [ReturnE(t, step)])
  }

  function DoReport(s: State, t: nat, step: Step): State
    requires t < |s.tasks| && PhaseOf(s.tasks[t], step).Settled?
  {
    var err := PhaseOf(s.tasks[t], step).err;
    OnError(SetTask(s, t, WithPhase(s.tasks[t], step, Reported(err))), t, step, err)
  }

  function DoExit(s: State, t: nat, step: Step): State
    requires t < |s.tasks| && PhaseOf(s.tasks[t], step).Reported?
  {
    SetTask(s, t, WithPhase(s.tasks[t], step, Finished(PhaseOf(s.tasks[t], step).err)))
  }

  /** Returning before any stage ran: all tasks are told first. */
  function ReturnEarly(s: State, err: Err): State {
    s.(cause := Some(err), pc := Skipping(0, 0, true))
  }

  function DoReadRegistry(s: State): State {
    if s.reg.initErrors != [] then ReturnEarly(s, BuildErrors(s.reg.initErrors).value)
    else if !HasStartTask(s) then ReturnEarly(s, ErrNoStartTask)
    else s.(pc := Hooking)
  }

  function DoPublish(s: State): State {
    s.(pc := Applying, ctx := s.ctx.(published := true, startup := s.ctx.caller))
  }

  function EnterStage(s: State, stage: nat): State {
    s.(pc := Scan(Setup, stage, 0), ran := stage + 1, setupErrs := [])
  }

  function DoApplyPending(s: State): State {
    var applied := if s.reg.pending.Some? then s.(ctx := CancelStartup(s.ctx, s.reg.pending.value)) else s;
    EnterStage(applied, 0)
  }

  /** The check of a step of a task, and its launch. */
  function CheckTask(task: Task, step: Step): Task {
    var checked := Check(task.log, task.has, task.ssm, step);
    var logged := task.(log := checked.log);
    if checked.verdict == Launch then WithPhase(logged, step, Launched) else logged
  }

  predicate InvalidOrder(task: Task, step: Step) {
    Check(task.log, task.has, task.ssm, step).verdict.Invalid?
  }

  /** One round of the manager's loop over the tasks of a stage. */
  function DoCheckNext(s: State): State
    requires s.pc.Scan? && s.pc.next < |s.tasks|
  {
    var t, step := s.pc.next, s.pc.step;
    var moved := s.(pc := Scan(step, s.pc.stage, t + 1));
    if s.tasks[t].spec.stage != s.pc.stage then moved
    else
      var checked := SetTask(moved, t, CheckTask(s.tasks[t], step)).(hist := s.hist + [CheckE(t, step)]);
      if InvalidOrder(s.tasks[t], step) then OnError(checked, t, step, Some(Fatal(Wrapped([ErrInvalidStepOrder]))))
      else checked
  }

  /** The wait after a step of a stage is over. */
  function DoProceed(s: State): State
    requires s.pc.Await?
  {
    var stage := s.pc.stage;
    match s.pc.step
    case Setup =>
      if s.setupErrs != [] then
        s.(failed := BuildErrors(s.setupErrs), pc := Skipping(stage + 1, 0, false))
      else s.(pc := Scan(Start, stage, 0))
    case Start =>
      if stage + 1 < s.cfg.stages then EnterStage(s, stage + 1) else s.(pc := Skipping(stage + 1, 0, false))
    case Stop => s.(pc := if stage > 0 then Scan(Stop, stage - 1, 0) else Draining)
    case Teardown => s.(pc := if stage > 0 then Scan(Teardown, stage - 1, 0) else Closing)
  }

  function SkipCause(s: State, early: bool): Option<Err> { if early then s.cause else s.failed }

  function DoNotify(s: State): State
    requires s.pc.Skipping?
  {
    var Skipping(stage, t, early) := s.pc;
    if stage >= s.cfg.stages then
      if early then s.(pc := Done(true), out := Some(Result(s.cause, None))) else s.(pc := Selecting)
    else if t >= |s.tasks| then s.(pc := Skipping(stage + 1, 0, early))
    else
      var moved := s.(pc := Skipping(stage, t + 1, early));
      if s.tasks[t].spec.stage == stage && s.tasks[t].spec.skippable then
        SetTask(moved, t, SkipTask(s.tasks[t], SkipCause(s, early))).(hist := s.hist + [SkipE(t)])
      else moved
  }

  /** The cause of exit is read, and the shutdown context is made. */
  function DoSelect(s: State, caller: bool): State
    requires s.cfg.stages > 0
  {
    var read := if caller then s.ctx.caller else s.ctx.startup;
    s.(cause := if s.failed.Some? then s.failed else read,
       pc := Scan(Stop, s.cfg.stages - 1, 0),
       clock := s.clock.(shutAt := s.clock.now),
       ctx := s.ctx.(shut := s.ctx.base),
       hist := if s.ctx.base.Some? then s.hist + [ShutE] else s.hist)
  }

  function DoTurn(s: State): State
    requires s.cfg.stages > 0
  {
    var own := s.cfg.teardownTimeout > 0;
    var checked := if own && s.ctx.shut.Some? then AddOwnErr(s, TimeoutError(s.ctx.shut.value)) else s;
    checked.(pc := Scan(Teardown, s.cfg.stages - 1, 0),
             clock := s.clock.(turnAt := s.clock.now),
             ctx := s.ctx.(down := if own then s.ctx.base else None))
  }

  function TeardownEnd(s: State): Option<Err> { if s.cfg.teardownTimeout > 0 then s.ctx.down else s.ctx.shut }

  function DoClose(s: State): State {
    var checked := if TeardownEnd(s).Some? then AddOwnErr(s, TimeoutError(TeardownEnd(s).value)) else s;
    checked.(pc := Building, clock := s.clock.(closeAt := s.clock.now))
  }

  function DoBuild(s: State): State
    requires s.cause.Some?
  {
    var stopErr := BuildErrors(s.errs);
    s.(pc := Done(false), built := |s.errs|, out := Some(Result(ExitCause(s.cause.value, stopErr), stopErr)))
  }

  function Apply(s: State, a: Action): State
    requires ValidConfig(s.cfg) && Enabled(s, a)
  {
    match a
    case CallRun => s.(pc := Claimed)
    case CancelCaller(cause) => DoCancelCaller(s, cause)
    case CancelBase(cause) => DoCancelBase(s, cause)
    case Tick => TickClock(s)
    case Enter(request) => s.(reg := s.reg.(lock := Some(Holder(request, IsRunning(s)))))
    case TaskReturn(t, step, out) => DoReturn(s, t, step, out)
    case Release => Serve(s.(reg := s.reg.(lock := None)), s.reg.lock.value)
    case Prepare(t, step) => SetTask(s, t, PrepareTask(s.tasks[t], step))
    case Begin(t, step) => DoBegin(s, t, step)
    case Settle(t, step) => SetTask(s, t, SettleTask(s.tasks[t], step))
    case Report(t, step) => DoReport(s, t, step)
    case Exit(t, step) => DoExit(s, t, step)
    case ReadRegistry => DoReadRegistry(s)
    case RunHooks(err) => if err.Some? then ReturnEarly(s, err.value) else s.(pc := Publishing)
    case Publish => DoPublish(s)
    case ApplyPending => DoApplyPending(s)
    case CheckNext => DoCheckNext(s)
    case EndScan => s.(pc := Await(s.pc.step, s.pc.stage))
    case Proceed => DoProceed(s)
    case Notify => DoNotify(s)
    case Select(caller) => DoSelect(s, caller)
    case Drained => s.(pc := Turning)
    case Turn => DoTurn(s)
    case Close => DoClose(s)
    case Build => DoBuild(s)
  }

  // ---------- runs ----------

  /** The actions of `acts` lead from `s` to `s'`. */
  ghost predicate Path(s: State, acts: seq<Action>, s': State)
    decreases |acts|
  {
    if acts == [] then s == s'
    else ValidConfig(s.cfg) && Enabled(s, acts[0]) && Path(Apply(s, acts[0]), acts[1..], s')
  }

  ghost predicate Reachable(s: State) {
    exists acts :: ValidConfig(s.cfg) && Path(Init(s.cfg), acts, s)
  }

  lemma PathNil(s: State)
    ensures Path(s, [], s)
  {
  }

  lemma PathCons(s: State, a: Action, rest: seq<Action>, s': State)
    requires ValidConfig(s.cfg) && Enabled(s, a) && Path(Apply(s, a), rest, s')
    ensures Path(s, [a] + rest, s')
  {
    hide Apply, Enabled;
    assert ([a] + rest)[1..] == rest;
  }

  lemma {:induction false} PathAppend(s: State, acts: seq<Action>, m: State, a: Action)
    requires Path(s, acts, m) && ValidConfig(m.cfg) && Enabled(m, a)
    ensures Path(s, acts + [a], Apply(m, a))
    decreases |acts|
  {
    hide Apply, Enabled;
    if acts == [] {
      assert Path(Apply(m, a), [], Apply(m, a));
    } else {
      PathAppend(Apply(s, acts[0]), acts[1..], m, a);
      assert (acts + [a])[1..] == acts[1..] + [a];
    }
  }
}
