/**
 * The wrapper of a task, as the manager and the goroutines of its steps use it. Each method makes the move of the
 * lifecycle that it stands for.
 */
module TaskWrappers {
  import opened Errors
  import opened Steps
  import opened Lifecycle

  // ---------- options ----------

  datatype TaskOption = CancelContext(on: bool) | UseStepManager | Callbacks(added: seq<nat>) | Handler(handler: nat)

  datatype TaskOptions =
    TaskOptions(cancelContext: bool, startStepManager: bool, callbacks: seq<nat>, handler: Option<nat>)

  const NO_OPTIONS := TaskOptions(false, false, [], None)

  function ApplyOption(options: TaskOptions, option: TaskOption): TaskOptions {
    match option
    case CancelContext(on) => options.(cancelContext := on)
    case UseStepManager => options.(startStepManager := true)
    case Callbacks(added) => options.(callbacks := options.callbacks + added)
    case Handler(handler) => options.(handler := Some(handler))
  }

  function ApplyAll(options: TaskOptions, more: seq<TaskOption>): TaskOptions {
    if more == [] then options else ApplyOption(ApplyAll(options, more[..|more| - 1]), more[|more| - 1])
  }

  /** The last setting wins, so the options of the task win over those it was added with; a manager stays on. */
  lemma {:induction false} LastSettingWins(options: TaskOptions, more: seq<TaskOption>, i: nat)
    requires i <= |more| && forall k :: i < k < |more| ==> !more[k].CancelContext?
    requires i < |more| ==> more[i].CancelContext?
    requires i == |more| ==> forall k :: 0 <= k < |more| ==> !more[k].CancelContext?
    ensures ApplyAll(options, more).cancelContext == if i < |more| then more[i].on else options.cancelContext
    ensures ApplyAll(options, more).startStepManager <==> options.startStepManager || UseStepManager in more
    decreases |more|
  {
    if more != [] {
      var n := |more| - 1;
      assert forall k :: 0 <= k < n ==> more[..n][k] == more[k];
      assert UseStepManager in more <==> UseStepManager in more[..n] || more[n] == UseStepManager;
      if i < n || i == |more| {
        LastSettingWins(options, more[..n], if i < n then i else n);
      } else {
        ManagerStaysOn(options, more[..n]);
      }
    }
  }

  lemma {:induction false} ManagerStaysOn(options: TaskOptions, more: seq<TaskOption>)
    ensures ApplyAll(options, more).startStepManager <==> options.startStepManager || UseStepManager in more
    decreases |more|
  {
    if more != [] {
      var n := |more| - 1;
      ManagerStaysOn(options, more[..n]);
      assert UseStepManager in more <==> UseStepManager in more[..n] || more[n] == UseStepManager;
    }
  }

  /** The last handler wins, and callbacks add up in order. */
  lemma {:induction false} HandlerAndCallbacks(options: TaskOptions, more: seq<TaskOption>, i: nat)
    requires i < |more|
    ensures more[i].Handler? && (forall k :: i < k < |more| ==> !more[k].Handler?) ==>
              ApplyAll(options, more).handler == Some(more[i].handler)
    ensures more[i].Callbacks? && (forall k :: i < k < |more| ==> !more[k].Callbacks?) ==>
              ApplyAll(options, more).callbacks == ApplyAll(options, more[..i]).callbacks + more[i].added
    decreases |more|
  {
    var n := |more| - 1;
    if i < n {
      assert more[..n][..i] == more[..i];
      HandlerAndCallbacks(options, more[..n], i);
    }
  }

  // ---------- contexts ----------

  /** A context that can be cancelled; the first cause stays. */
  class Context<Cause> {
    var cause: Option<Cause>

    constructor ()
      ensures cause == None
    {
      cause := None;
    }

    method Cancel(why: Cause)
      modifies this
      ensures cause == if old(cause).Some? then old(cause) else Some(why)
    {
      if cause.None? {
        cause := Some(why);
      }
    }
  }

  /** Why the context of a start step's end was cancelled: an error, or the mark for none. */
  datatype EndCause = NilError | StepError(err: Err)

  function EndCauseOf(err: Option<Err>): EndCause { if err.Some? then StepError(err.value) else NilError }

  /** The error that such a cause stands for. */
  function ErrOfEnd(cause: EndCause): Option<Err> { if cause.StepError? then Some(cause.err) else None }

  lemma EndRoundTrip(err: Option<Err>)
    ensures ErrOfEnd(EndCauseOf(err)) == err
  {
  }

  /** What a stop step may do with the start step of its task. */
  class StepManager {
    const cancel: Context?<Err>
    const finished: Context?<EndCause>

    constructor (cancel: Context?<Err>, finished: Context?<EndCause>)
      ensures this.cancel == cancel && this.finished == finished
    {
      this.cancel := cancel;
      this.finished := finished;
    }

    predicate CanContextCancel() { cancel != null }

    predicate CanFinished() { finished != null }

    method ContextCancel(cause: Err) returns (done: bool)
      modifies cancel
      ensures done == CanContextCancel()
      ensures done ==> cancel.cause == if old(cancel.cause).Some? then old(cancel.cause) else Some(cause)
    {
      if cancel == null { return false; }
      cancel.Cancel(cause);
      done := true;
    }

    /** Whether the channel of the end of the start step is closed; it is if there is nothing to wait for. */
    predicate Finished()
      reads finished
    {
      finished == null || finished.cause.Some?
    }

    function FinishedErr(): Option<Err>
      reads finished
    {
      if finished == null || finished.cause == None then None else ErrOfEnd(finished.cause.value)
    }
  }

  // ---------- the wrapper ----------

  function StepSet(steps: Option<seq<Step>>): set<Step> { set step | step in Listed(steps) }

  /** What the task tells of itself; without a list of steps it has all of them. */
  class TaskInfo {
    var steps: Option<seq<Step>>
    var options: seq<TaskOption>

    constructor (steps: Option<seq<Step>>, options: seq<TaskOption>)
      ensures this.steps == steps && this.options == options
    {
      this.steps, this.options := steps, options;
    }

    function Steps(): seq<Step>
      reads this
    {
      Listed(steps)
    }
  }

  class TaskWrapper {
    const task: TaskInfo
    const addOptions: TaskOptions
    var executeSteps: seq<Step>
    var startCancel: Context?<Err>
    var finishCtx: Context?<EndCause>
    ghost var model: Task             // the task of the lifecycle that this wrapper is

    ghost predicate Valid()
      reads this, task, finishCtx
    {
      && executeSteps == model.log
      && model.has == StepSet(task.steps)
      && (model.ssm <==> ApplyAll(addOptions, task.options).startStepManager)
      && (startCancel != null <==> model.cancel)
      && (finishCtx != null <==> model.finish != NoFinish)
      && (model.finish == Running ==> finishCtx.cause == None)
      && (model.finish.Ended? ==> finishCtx.cause == Some(EndCauseOf(model.finish.err)))
    }

    constructor (task: TaskInfo, options: seq<TaskOption>, ghost spec: Spec)
      requires spec.steps == StepSet(task.steps)
      requires spec.ssm <==>
                 ApplyAll(ApplyAll(NO_OPTIONS, options), task.options).startStepManager
      ensures Valid() && model == NewTask(spec) && this.task == task && addOptions == ApplyAll(NO_OPTIONS, options)
    {
      this.task := task;
      addOptions := ApplyAll(NO_OPTIONS, options);
      executeSteps, startCancel, finishCtx, model := [], null, null, NewTask(spec);
    }

    /** The options the task was added with, and its own over them. */
    method CurrentOptions() returns (options: TaskOptions)
      ensures options == ApplyAll(addOptions, task.options)
    {
      options := addOptions;
      for i := 0 to |task.options|
        invariant options == ApplyAll(addOptions, task.options[..i])
      {
        assert task.options[..i + 1][..i] == task.options[..i];
        options := ApplyOption(options, task.options[i]);
      }
      assert task.options[..|task.options|] == task.options;
    }

    predicate HasStep(step: Step)
      reads task
      ensures task.steps == None ==> HasStep(step)
      ensures task.steps.Some? ==> (HasStep(step) <==> step in task.steps.value)
    {
      step in task.Steps()
    }

    method StepsAreDoneAny(steps: seq<Step>) returns (any: bool)
      ensures any <==> exists step :: step in steps && step in executeSteps
    {
      for i := 0 to |steps|
        invariant forall k :: 0 <= k < i ==> steps[k] !in executeSteps
      {
        if steps[i] in executeSteps { return true; }
      }
      any := false;
    }

    method PrevStepIsDone(step: Step) returns (done: bool, err: Option<Err>)
      ensures err == if PrevDone(executeSteps, step) == None then Some(Wrapped([ErrInvalidStepOrder])) else None
      ensures done <==> PrevDone(executeSteps, step) == Some(true)
    {
      done := false;
      err := None;
      var any;
      match step
      case Setup =>
        any := StepsAreDoneAny([Setup, Start, Stop, Teardown]);
        if !any { return true, None; }
        assert Setup in [Setup, Start, Stop, Teardown];
        return false, Some(Wrapped([ErrInvalidStepOrder]));
      case Start =>
        any := StepsAreDoneAny([Start, Stop, Teardown]);
        if any { return false, Some(Wrapped([ErrInvalidStepOrder])); }
        assert Start in [Start, Stop, Teardown];
        done := StepsAreDoneAny([Setup]);
      case Stop =>
        any := StepsAreDoneAny([Stop, Teardown]);
        if any { return false, Some(Wrapped([ErrInvalidStepOrder])); }
        done := StepsAreDoneAny([Start]);
      case Teardown =>
        any := StepsAreDoneAny([Teardown]);
        if any { return false, Some(Wrapped([ErrInvalidStepOrder])); }
        done := StepsAreDoneAny([Setup]);
    }

    method CanStartStep(step: Step) returns (can: bool)
      requires Valid()
      ensures can == CanStart(model.has, model.ssm, step)
    {
      if HasStep(step) { return true; }
      if step == Stop {
        var options := CurrentOptions();
        return options.startStepManager;
      }
      can := false;
    }

    /** The check of the manager before it launches a step. */
    method CheckStartStep(step: Step) returns (start: bool, err: Option<Err>)
      requires Valid() && PhaseOf(model, step) == Idle
      modifies this
      ensures Valid() && model == CheckTask(old(model), step)
      ensures err.Some? <==> InvalidOrder(old(model), step)
      ensures err.Some? ==> Is(err.value, ErrInvalidStepOrder) && executeSteps == old(executeSteps)
      ensures start <==> PhaseOf(model, step) == Launched
    {
      var can := CanStartStep(step);
      var done;
      done, err := PrevStepIsDone(step);
      SingleIs(ErrInvalidStepOrder);
      model := CheckTask(model, step);
      if err.Some? { return false, err; }
      if !can && done {
        executeSteps := executeSteps + [step];
      }
      start := can && done;
    }

    /** The part of a goroutine before it signals that it has started. */
    method Prepare(step: Step) returns (manager: StepManager?)
      requires Valid() && PhaseOf(model, step) == Launched && !(step == Start && model.cancel)
      modifies this
      ensures Valid() && model == PrepareTask(old(model), step)
      ensures startCancel == old(startCancel) || (step == Start && fresh(startCancel))
      ensures finishCtx == old(finishCtx) || (step == Start && fresh(finishCtx))
      ensures step == Start && model.ssm ==> startCancel != null && fresh(startCancel) && startCancel.cause == None
      ensures manager != null <==> step == Stop && model.ssm
      ensures manager != null ==>
                && model.saw == Some(Handles(manager.CanContextCancel(), manager.CanFinished()))
                && manager.cancel == startCancel && manager.finished == finishCtx
    {
      var options := CurrentOptions();
      manager := null;
      if step == Start && options.startStepManager {
        startCancel := new Context();
        finishCtx := new Context();
      } else if step == Stop && options.startStepManager {
        manager := new StepManager(startCancel, finishCtx);
      }
      model := PrepareTask(model, step);
    }

    /** The run of a step: every step but a setup is recorded before the task is called. */
    method Run(step: Step, ret: CallResult, ghost out: Outcome)
      requires Valid() && PhaseOf(model, step) == Ready && HasStep(step) && Describes(ret, out)
      modifies this`executeSteps, this`model, task, finishCtx
      ensures Valid() && model == SettleTask(ReturnTask(BeginTask(old(model), step), step, out), step)
    {
      hide BeginTask, ReturnTask, SettleTask, PhaseOf;
      RunEffect(model, step, out);
      model := SettleTask(ReturnTask(BeginTask(model, step), step, out), step);
      if step != Setup {
        executeSteps := executeSteps + [step];
      }
      task.steps, task.options := ret.steps, ret.options;
      if step == Setup && ret.err == None {
        executeSteps := executeSteps + [step];
      }
      if step == Start && finishCtx != null {
        finishCtx.Cancel(EndCauseOf(ret.err));
      }
    }

    /** What a stop step that is given the context sees of the start step: whether it ended, and with which error. */
    lemma SeesTheEnd(manager: StepManager)
      requires Valid() && manager.finished == finishCtx
      ensures manager.Finished() <==> model.finish != Running
      ensures manager.FinishedErr() == if model.finish.Ended? then model.finish.err else None
    {
      if model.finish.Ended? { EndRoundTrip(model.finish.err); }
    }

    ghost predicate Describes(ret: CallResult, out: Outcome) {
      && out.err == ret.err
      && out.has == StepSet(ret.steps)
      && (out.ssm <==> ApplyAll(addOptions, ret.options).startStepManager)
    }

    /** The goroutine of a step, from its launch to the call of the manager's error callback. */
    method Goroutine(step: Step, ret: CallResult, ghost out: Outcome) returns (ran: bool, manager: StepManager?)
      requires Valid() && PhaseOf(model, step) == Launched && !(step == Start && model.cancel) && Describes(ret, out)
      modifies this, task, finishCtx
      ensures Valid() && model == GoroutineOf(old(model), step, out)
      ensures ran <==> step in old(model.has)
      ensures step == Start && old(model.ssm) ==>
                && startCancel != null && fresh(startCancel) && startCancel.cause == Some(Canceled)
                && finishCtx != null && finishCtx.cause.Some?
                && ErrOfEnd(finishCtx.cause.value) == if ran then ret.err else None
    {
      PrepareEffect(model, step);
      manager := Prepare(step);
      hide PrepareTask, BeginTask, ReturnTask, SettleTask;
      ran := HasStep(step);
      if ran {
        RunEffect(model, step, out);
        Run(step, ret, out);
      } else {
        QuitEffect(model, step);
        model := BeginTask(model, step);
        if step == Start && finishCtx != null {
          finishCtx.Cancel(NilError);
        }
      }
      if step == Start && startCancel != null {
        startCancel.Cancel(Canceled);
      }
    }
  }

  /** What a call of the task returned, and what the task tells of itself from then on. */
  datatype CallResult = CallResult(err: Option<Err>, steps: Option<seq<Step>>, options: seq<TaskOption>)

  /** What a run changes of the fields that the wrapper holds. */
  lemma RunEffect(task: Task, step: Step, out: Outcome)
    requires PhaseOf(task, step) == Ready && step in task.has
    ensures PhaseOf(ReturnTask(BeginTask(task, step), step, out), step).Returned?
    ensures var task' := SettleTask(ReturnTask(BeginTask(task, step), step, out), step);
      && task'.log == (if step != Setup || out.err == None then task.log + [step] else task.log)
      && task'.has == out.has && task'.ssm == out.ssm && task'.cancel == task.cancel
      && task'.finish == if step == Start && task.finish == Running then Ended(out.err) else task.finish
  {
    var begun := BeginTask(task, step);
    BegunEffect(task, step);
    ReturnedEffect(begun, step, out);
    SettledEffect(ReturnTask(begun, step, out), step, out.err);
    hide *;
  }

  predicate SameHandles(task: Task, task': Task) { task'.cancel == task.cancel && task'.finish == task.finish }

  lemma BegunEffect(task: Task, step: Step)
    requires step in task.has
    ensures SameHandles(task, BeginTask(task, step))
    ensures BeginTask(task, step).log == if step == Setup then task.log else task.log + [step]
  {
  }

  lemma ReturnedEffect(task: Task, step: Step, out: Outcome)
    ensures SameHandles(task, ReturnTask(task, step, out)) && ReturnTask(task, step, out).log == task.log
    ensures ReturnTask(task, step, out).has == out.has && ReturnTask(task, step, out).ssm == out.ssm
    ensures PhaseOf(ReturnTask(task, step, out), step) == Returned(out.err)
  {
  }

  lemma SettledEffect(task: Task, step: Step, err: Option<Err>)
    requires PhaseOf(task, step) == Returned(err)
    ensures var task' := SettleTask(task, step);
      && task'.has == task.has && task'.ssm == task.ssm && task'.cancel == task.cancel
      && task'.log == (if step == Setup && err == None then task.log + [Setup] else task.log)
      && task'.finish == if step == Start && task.finish == Running then Ended(err) else task.finish
  {
  }

  lemma PrepareEffect(task: Task, step: Step)
    ensures var task' := PrepareTask(task, step);
      && PhaseOf(task', step) == Ready && task'.has == task.has && task'.ssm == task.ssm
      && (step == Start && task.ssm ==> task'.cancel && task'.finish == Running)
  {
  }

  lemma QuitEffect(task: Task, step: Step)
    requires step !in task.has
    ensures var task' := BeginTask(task, step);
      && task'.log == task.log && task'.has == task.has && task'.ssm == task.ssm && task'.cancel == task.cancel
      && task'.finish == if step == Start && task.finish == Running then Ended(None) else task.finish
  {
  }

  /** A goroutine from its launch to the call of the error callback, when nothing else moves. */
  function GoroutineOf(task: Task, step: Step, out: Outcome): Task {
    var begun := BeginTask(PrepareTask(task, step), step);
    if step in task.has then SettleTask(ReturnTask(begun, step, out), step) else begun
  }

  /** What the goroutine does is four moves of the lifecycle, between which anything else may happen. */
  lemma GoroutineIsMoves(s: State, t: nat, step: Step, out: Outcome)
    requires ValidConfig(s.cfg) && InPhase(s, t, step, Launched) && step in s.tasks[t].has
    requires Plausible(s.cfg, BeginTask(PrepareTask(s.tasks[t], step), step), step, out)
    ensures Path(s, [Prepare(t, step), Begin(t, step), TaskReturn(t, step, out), Settle(t, step)],
                 s.(tasks := s.tasks[t := GoroutineOf(s.tasks[t], step, out)],
                    hist := s.hist + [CallE(t, step), ReturnE(t, step)]))
  {
    var task := s.tasks[t];
    var begun := BeginTask(PrepareTask(task, step), step);
    PrepareEffect(task, step);
    CallEffect(PrepareTask(task, step), step, out);
    hide PrepareTask, BeginTask, ReturnTask, SettleTask, Plausible, Path;
    var m := s.(tasks := s.tasks[t := begun], hist := s.hist + [CallE(t, step)]);
    var last := m.(tasks := m.tasks[t := SettleTask(ReturnTask(begun, step, out), step)],
                   hist := m.hist + [ReturnE(t, step)]);
    SecondHalf(m, t, step, out);
    FirstHalf(s, t, step, [TaskReturn(t, step, out), Settle(t, step)], last);
    assert last.tasks == s.tasks[t := GoroutineOf(task, step, out)];
    assert last.hist == s.hist + [CallE(t, step), ReturnE(t, step)];
    assert [Prepare(t, step)] + ([Begin(t, step)] + [TaskReturn(t, step, out), Settle(t, step)])
        == [Prepare(t, step), Begin(t, step), TaskReturn(t, step, out), Settle(t, step)];
  }

  /** Up to the call of the task. */
  lemma FirstHalf(s: State, t: nat, step: Step, rest: seq<Action>, last: State)
    requires ValidConfig(s.cfg) && InPhase(s, t, step, Launched) && step in s.tasks[t].has
    requires Path(s.(tasks := s.tasks[t := BeginTask(PrepareTask(s.tasks[t], step), step)],
                     hist := s.hist + [CallE(t, step)]), rest, last)
    ensures Path(s, [Prepare(t, step)] + ([Begin(t, step)] + rest), last)
  {
    PrepareEffect(s.tasks[t], step);
    hide PrepareTask, BeginTask, Path;
    var s1 := Apply(s, Prepare(t, step));
    assert Apply(s1, Begin(t, step)).tasks
        == s.tasks[t := BeginTask(PrepareTask(s.tasks[t], step), step)];
    PathCons(s1, Begin(t, step), rest, last);
    PathCons(s, Prepare(t, step), [Begin(t, step)] + rest, last);
  }

  /** From its return. */
  lemma SecondHalf(s: State, t: nat, step: Step, out: Outcome)
    requires ValidConfig(s.cfg) && InPhase(s, t, step, Calling) && Plausible(s.cfg, s.tasks[t], step, out)
    requires PhaseOf(ReturnTask(s.tasks[t], step, out), step).Returned?
    ensures Path(s, [TaskReturn(t, step, out), Settle(t, step)],
                 s.(tasks := s.tasks[t := SettleTask(ReturnTask(s.tasks[t], step, out), step)],
                    hist := s.hist + [ReturnE(t, step)]))
  {
    hide ReturnTask, SettleTask, Plausible, Path;
    var s1 := Apply(s, TaskReturn(t, step, out));
    assert s1.tasks[t] == ReturnTask(s.tasks[t], step, out);
    var s2 := Apply(s1, Settle(t, step));
    assert s2.tasks == s.tasks[t := SettleTask(ReturnTask(s.tasks[t], step, out), step)];
    hide Apply, Enabled;
    PathNil(s2);
    PathCons(s1, Settle(t, step), [], s2);
    PathCons(s, TaskReturn(t, step, out), [Settle(t, step)] + [], s2);
    assert [TaskReturn(t, step, out)] + [Settle(t, step)] == [TaskReturn(t, step, out), Settle(t, step)];
    assert [Settle(t, step)] + [] == [Settle(t, step)];
  }

  lemma CallEffect(task: Task, step: Step, out: Outcome)
    requires PhaseOf(task, step) == Ready && step in task.has
    ensures PhaseOf(BeginTask(task, step), step) == Calling
    ensures PhaseOf(ReturnTask(BeginTask(task, step), step, out), step).Returned?
  {
  }
}
