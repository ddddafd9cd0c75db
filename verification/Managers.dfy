/**
 * The manager's own fields: its stages, its tasks, and what callers and the run leave for each other under its
 * mutex. Each method makes the move of the lifecycle that it stands for.
 */
module Managers {
  import opened Errors
  import opened Steps
  import opened Lifecycle
  import opened TaskWrappers
  import opened Invariant
  import opened History

  // ---------- the tasks of the stages ----------

  type Added = seq<(string, TaskWrapper)>

  /** The tasks of one stage, in the order they were added. */
  function OfStage(added: Added, stage: string): seq<TaskWrapper> {
    if added == [] then []
    else
      var n := |added| - 1;
      OfStage(added[..n], stage) + if added[n].0 == stage then [added[n].1] else []
  }

  lemma {:induction false} OfStageMember(added: Added, stage: string, w: TaskWrapper)
    ensures w in OfStage(added, stage) <==> (stage, w) in added
    decreases |added|
  {
    if added != [] {
      var n := |added| - 1;
      OfStageMember(added[..n], stage, w);
      assert added == added[..n] + [added[n]];
    }
  }

  /** The task at `i` is in its stage's list, behind those of the stage that were added before. */
  lemma {:induction false} OfStageAt(added: Added, stage: string, i: nat)
    requires i < |added| && added[i].0 == stage
    ensures |OfStage(added[..i], stage)| < |OfStage(added, stage)|
    ensures OfStage(added, stage)[|OfStage(added[..i], stage)|] == added[i].1
    decreases |added|
  {
    var n := |added| - 1;
    if i < n {
      assert added[..n][..i] == added[..i];
      OfStageAt(added[..n], stage, i);
    }
  }

  class StageTasks {
    var tasks: map<string, seq<TaskWrapper>>
    ghost var added: Added            // all tasks, in the order they were added

    ghost predicate Valid()
      reads this
    {
      forall stage :: Listed(stage) == OfStage(added, stage)
    }

    function Listed(stage: string): seq<TaskWrapper>
      reads this
    {
      if stage in tasks then tasks[stage] else []
    }

    constructor ()
      ensures Valid() && added == []
    {
      tasks, added := map[], [];
    }

    method Add(stage: string, w: TaskWrapper)
      requires Valid()
      modifies this
      ensures Valid() && added == old(added) + [(stage, w)]
    {
      tasks := tasks[stage := Listed(stage) + [w]];
      added := added + [(stage, w)];
      assert added[..|added| - 1] == old(added);
    }

    /** How many tasks have the step; the stages are visited in no particular order. */
    method StepTaskCount(step: Step) returns (count: nat)
      requires Valid()
      ensures count == CountIn(added, step, tasks.Keys)
    {
      count := 0;
      var left := tasks.Keys;
      ghost var visited: set<string> := {};
      CountNone(added, step);
      hide CountIn, OfStage, TaskWrapper.HasStep;
      while left != {}
        invariant visited !! left && visited + left == tasks.Keys && count == CountIn(added, step, visited)
        decreases |left|
      {
        var stage :| stage in left;
        var inStage := CountSteps(Listed(stage), step, added, visited);
        count := count + inStage;
        CountSplit(added, step, visited, stage);
        left, visited := left - {stage}, visited + {stage};
      }
      assert visited == tasks.Keys;
    }
  }

  method CountSteps(list: seq<TaskWrapper>, step: Step, ghost added: Added, ghost visited: set<string>)
    returns (count: nat)
    ensures count == Count(list, step) && CountIn(added, step, visited) == old(CountIn(added, step, visited))
  {
    count := 0;
    for i := 0 to |list|
      invariant count == Count(list[..i], step)
    {
      assert list[..i + 1][..i] == list[..i];
      if list[i].HasStep(step) { count := count + 1; }
    }
    assert list[..|list|] == list;
  }

  function Infos(list: seq<TaskWrapper>): set<object> { set w | w in list :: w.task }

  /** How many tasks of a list have the step. */
  function Count(list: seq<TaskWrapper>, step: Step): nat
    reads Infos(list)
  {
    if list == [] then 0
    else Count(list[..|list| - 1], step) + if list[|list| - 1].HasStep(step) then 1 else 0
  }

  function AddedInfos(added: Added): set<object> { set i | 0 <= i < |added| :: added[i].1.task }

  /** How many tasks of some stages have the step. */
  function CountIn(added: Added, step: Step, stages: set<string>): nat
    reads AddedInfos(added)
  {
    if added == [] then 0
    else
      var (stage, w) := added[|added| - 1];
      CountIn(added[..|added| - 1], step, stages) + if stage in stages && w.HasStep(step) then 1 else 0
  }

  lemma {:induction false} CountNone(added: Added, step: Step)
    ensures CountIn(added, step, {}) == 0
    decreases |added|
  {
    if added != [] { CountNone(added[..|added| - 1], step); }
  }

  lemma CountAppend(list: seq<TaskWrapper>, w: TaskWrapper, step: Step)
    ensures Count(list + [w], step) == Count(list, step) + if w.HasStep(step) then 1 else 0
  {
    assert (list + [w])[..|list|] == list;
  }

  /** Visiting one more stage counts its list. */
  lemma {:induction false} CountSplit(added: Added, step: Step, stages: set<string>, stage: string)
    requires stage !in stages
    ensures CountIn(added, step, stages + {stage}) == CountIn(added, step, stages) + Count(OfStage(added, stage), step)
    decreases |added|
  {
    if added != [] {
      var n := |added| - 1;
      CountSplit(added[..n], step, stages, stage);
      if added[n].0 == stage {
        CountAppend(OfStage(added[..n], stage), added[n].1, step);
      } else {
        assert OfStage(added, stage) == OfStage(added[..n], stage);
      }
      hide Count, TaskWrapper.HasStep;
    }
  }

  /** When all stages are visited, the count is positive exactly when a task has the step. */
  lemma {:induction false} CountPositive(added: Added, step: Step, stages: set<string>)
    requires forall i :: 0 <= i < |added| ==> added[i].0 in stages
    ensures CountIn(added, step, stages) > 0 <==> exists i :: 0 <= i < |added| && added[i].1.HasStep(step)
    decreases |added|
  {
    if added != [] {
      var n := |added| - 1;
      assert forall i :: 0 <= i < n ==> added[..n][i] == added[i];
      CountPositive(added[..n], step, stages);
    }
  }

  // ---------- the manager ----------

  /** The stages a manager accepts: at least one, none blank, none twice. */
  predicate GoodStages(stages: seq<string>) {
    stages != [] && "" !in stages && NoRepeat(stages)
  }

  /** The check of the stages when a manager is made. */
  method CheckStages(stages: seq<string>) returns (err: Option<Err>)
    ensures err == None <==> GoodStages(stages)
    ensures err.Some? ==> err.value == if stages == [] then ErrNoStage else Wrapped([ErrInvalidStage])
  {
    if stages == [] { return Some(ErrNoStage); }
    var seen: set<string> := {};
    for i := 0 to |stages|
      invariant seen == set k | 0 <= k < i :: stages[k]
      invariant "" !in stages[..i] && NoRepeat(stages[..i])
    {
      if stages[i] == "" {
        assert stages[i] in stages;
        return Some(Wrapped([ErrInvalidStage]));
      }
      if stages[i] in seen {
        var k :| 0 <= k < i && stages[k] == stages[i];
        return Some(Wrapped([ErrInvalidStage]));
      }
      seen := seen + {stages[i]};
    }
    assert stages[..|stages|] == stages;
    err := None;
  }

  function IndexOf(stages: seq<string>, stage: string): (i: nat)
    requires stage in stages
    ensures i < |stages| && stages[i] == stage
  {
    if stages[0] == stage then 0 else 1 + IndexOf(stages[1..], stage)
  }

  function Wrappers(added: Added): set<object> { set i | 0 <= i < |added| :: added[i].1 }

  function Finishes(added: Added): set<object?>
    reads Wrappers(added)
  {
    set i | 0 <= i < |added| :: added[i].1.finishCtx
  }

  /** Each added wrapper is the task of the lifecycle at its place, and in its stage. */
  ghost predicate AreTasks(added: Added, stages: seq<string>, tasks: seq<Task>)
    reads Wrappers(added), AddedInfos(added), Finishes(added)
  {
    && |added| == |tasks|
    && (forall i, k :: 0 <= i < k < |added| ==> added[i].1 != added[k].1)
    && forall i :: 0 <= i < |added| ==>
         && tasks[i].spec.stage < |stages| && added[i].0 == stages[tasks[i].spec.stage]
         && added[i].1.Valid() && added[i].1.model == tasks[i]
  }

  function CauseOf(cancel: Option<Cancel>): Option<Err> { if cancel.Some? then Some(cancel.value.cause) else None }

  class Manager {
    const stages: seq<string>
    const tasks: StageTasks
    var isRunning: bool
    var initErrors: seq<Err>
    var startupCtx: Context?<Err>               // with its cancel function
    var pendingStartupCancel: Option<Err>

    /** The manager is at state `s` of the lifecycle. */
    ghost predicate Is(s: State)
      reads this, tasks, startupCtx, Wrappers(tasks.added), AddedInfos(tasks.added), Finishes(tasks.added)
    {
      && GoodStages(stages) && s.cfg.stages == |stages|
      && tasks.Valid() && AreTasks(tasks.added, stages, s.tasks)
      && (isRunning <==> IsRunning(s))
      && initErrors == s.reg.initErrors && pendingStartupCancel == CauseOf(s.reg.pending)
      && (startupCtx != null <==> s.ctx.published)
      && (startupCtx != null ==> startupCtx.cause == s.ctx.startup)
    }

    constructor (stages: seq<string>, ghost cfg: Config)
      requires GoodStages(stages) && cfg.stages == |stages|
      ensures Is(Init(cfg)) && this.stages == stages && fresh(tasks)
    {
      this.stages := stages;
      tasks := new StageTasks();
      isRunning, initErrors, startupCtx, pendingStartupCancel := false, [], null, None;
    }

    /**
     * The run was asked to end with this cause: it is that of the startup context unless that had ended, or it is kept
     * for the context to come unless another one is.
     */
    twostate predicate AskedToEnd(cause: Err)
      reads this, startupCtx
    {
      && startupCtx == old(startupCtx)
      && (startupCtx != null ==>
            && startupCtx.cause == (if old(startupCtx.cause).Some? then old(startupCtx.cause) else Some(cause))
            && pendingStartupCancel == old(pendingStartupCancel))
      && (startupCtx == null ==>
            pendingStartupCancel == if old(pendingStartupCancel).Some? then old(pendingStartupCancel) else Some(cause))
    }

    /** The error is one more initialization error, and nothing else happened. */
    twostate predicate Recorded(err: Err)
      reads this, startupCtx
    {
      && initErrors == old(initErrors) + [err] && pendingStartupCancel == old(pendingStartupCancel)
      && startupCtx == old(startupCtx) && (startupCtx != null ==> startupCtx.cause == old(startupCtx.cause))
    }

    /** Cancels the startup context, or leaves the cause for when it exists. */
    method RequestStartupCancel(cause: Err, ghost request: Request, ghost s: State)
      requires Is(s)
      modifies this`pendingStartupCancel, startupCtx
      ensures Is(RequestCancel(s, request, cause)) && AskedToEnd(cause)
    {
      if startupCtx != null {
        startupCtx.Cancel(cause);
      } else if pendingStartupCancel == None {
        pendingStartupCancel := Some(cause);
      }
    }

    method Shutdown(ghost s: State, ghost saw: bool)
      requires Is(s)
      modifies this`pendingStartupCancel, startupCtx
      ensures Is(Serve(s, Holder(Request.Shutdown, saw))) && AskedToEnd(ErrExit)
    {
      RequestStartupCancel(ErrExit, Request.Shutdown, s);
    }

    method RecordError(err: Err, ghost request: Request, ghost s: State)
      requires Is(s)
      modifies this`pendingStartupCancel, this`initErrors, startupCtx
      ensures Is(RecordInitError(s, request, err))
      ensures if isRunning then AskedToEnd(Wrapped([ErrAlreadyRunning, err])) && initErrors == old(initErrors)
              else Recorded(err)
    {
      if isRunning {
        RequestStartupCancel(Wrapped([ErrAlreadyRunning, err]), request, s);
      } else {
        initErrors := initErrors + [err];
      }
    }

    method AddInitError(err: Option<Err>, ghost s: State, ghost saw: bool)
      requires Is(s)
      modifies this`pendingStartupCancel, this`initErrors, startupCtx
      ensures if err == None then Is(s) else Is(Serve(s, Holder(Request.AddInitError(err.value), saw)))
      ensures err.Some? && isRunning ==> AskedToEnd(Wrapped([ErrAlreadyRunning, err.value]))
      ensures err.Some? && !isRunning ==> Recorded(err.value)
      ensures err == None || isRunning ==> initErrors == old(initErrors)
    {
      if err == None { return; }
      RecordError(err.value, Request.AddInitError(err.value), s);
    }

    /** What the arguments of `AddTask` ask for. */
    ghost function AddOf(stage: string, info: TaskInfo?, initError: Option<Err>, options: seq<TaskOption>,
                         kind: Kind, skippable: bool): AddRequest
      reads info
    {
      if info == null then NilTask
      else if initError.Some? then BadTask(initError.value)
      else if stage !in stages then BadStage
      else
        var ssm := ApplyAll(ApplyAll(NO_OPTIONS, options), info.options).startStepManager;
        GoodTask(Spec(IndexOf(stages, stage), kind, skippable, StepSet(info.steps), ssm))
    }

    /** Adds a task, records an error, or asks the run to end. */
    method AddTask(stage: string, info: TaskInfo?, initError: Option<Err>, options: seq<TaskOption>,
                   ghost kind: Kind, ghost skippable: bool, ghost s: State)
      requires Is(s)
      modifies this`pendingStartupCancel, this`initErrors, startupCtx, tasks
      ensures Is(Serve(s, Holder(Request.AddTask(old(AddOf(stage, info, initError, options, kind, skippable))),
                                 IsRunning(s))))
      ensures isRunning ==> AskedToEnd(Wrapped([ErrAlreadyRunning])) && initErrors == old(initErrors)
      ensures !isRunning && info == null ==> Recorded(ErrNilTask)
      ensures !isRunning && info != null && initError.Some? ==> Recorded(initError.value)
      ensures !isRunning && info != null && initError == None && stage !in stages ==>
                Recorded(Wrapped([ErrInvalidStage]))
      ensures !isRunning && info != null && initError == None && stage in stages ==>
                && |tasks.added| == |old(tasks.added)| + 1 && old(tasks.added) <= tasks.added
                && tasks.added[|old(tasks.added)|].0 == stage
                && tasks.added[|old(tasks.added)|].1.task == info
                && tasks.added[|old(tasks.added)|].1.addOptions == ApplyAll(NO_OPTIONS, options)
                && initErrors == old(initErrors) && pendingStartupCancel == old(pendingStartupCancel)
    {
      ghost var add := AddOf(stage, info, initError, options, kind, skippable);
      ghost var request := Request.AddTask(add);
      if isRunning {
        RequestStartupCancel(Wrapped([ErrAlreadyRunning]), request, s);
      } else if info == null {
        RecordError(ErrNilTask, request, s);
      } else if initError.Some? {
        RecordError(initError.value, request, s);
      } else if stage !in stages {
        RecordError(Wrapped([ErrInvalidStage]), request, s);
      } else {
        ghost var spec := add.spec;
        var w := new TaskWrapper(info, options, spec);
        Append(stage, w, s);
      }
    }

    method Append(stage: string, w: TaskWrapper, ghost s: State)
      requires Is(s) && w.Valid() && w !in OfAll(tasks.added)
      requires w.model.spec.stage < |stages| && stages[w.model.spec.stage] == stage
      modifies tasks
      ensures Is(s.(tasks := s.tasks + [w.model])) && tasks.added == old(tasks.added) + [(stage, w)]
    {
      tasks.Add(stage, w);
    }

    /** The flag is claimed once: a second run is refused, and changes nothing. */
    method ClaimRun(ghost s: State) returns (err: Option<Err>)
      requires Is(s)
      modifies this`isRunning
      ensures err == if IsRunning(s) then Some(ErrAlreadyRunning) else None
      ensures if err == None then Is(s.(pc := Claimed)) else Is(s)
    {
      if isRunning { return Some(ErrAlreadyRunning); }
      isRunning := true;
      err := None;
    }

    /** What the run reads under the mutex: why it must return at once, if it must. */
    method ReadRegistry(ghost s: State) returns (err: Option<Err>)
      requires Is(s) && s.pc.Claimed?
      ensures DoReadRegistry(s) == if err == None then s.(pc := Hooking) else ReturnEarly(s, err.value)
      ensures err == None <==>
                initErrors == [] && exists i :: 0 <= i < |tasks.added| && tasks.added[i].1.HasStep(Start)
      ensures initErrors == [] && err.Some? ==> err.value == ErrNoStartTask
      ensures |initErrors| == 1 ==> err == Some(initErrors[0])
      ensures |initErrors| > 1 ==> err == Some(Multi(initErrors))
    {
      var count := tasks.StepTaskCount(Start);
      StartCounted(tasks, stages, s);
      err := if initErrors != [] then BuildErrors(initErrors) else if count == 0 then Some(ErrNoStartTask) else None;
    }

    /** The contexts of the run are made under the mutex. */
    method Publish(caller: Option<Err>, ghost s: State) returns (pending: Option<Err>)
      requires Is(s) && s.pc.Publishing? && !s.ctx.published && s.ctx.caller == caller
      modifies this`startupCtx
      ensures Is(DoPublish(s)) && startupCtx != null && pending == CauseOf(s.reg.pending)
    {
      startupCtx := new Context();
      if caller.Some? {
        startupCtx.Cancel(caller.value);
      }
      pending := pendingStartupCancel;
    }

    /** A cancel asked for before there was a context is applied. */
    method ApplyPending(pending: Option<Err>, ghost s: State)
      requires Is(s) && s.pc.Applying? && s.ctx.published && pending == CauseOf(s.reg.pending)
      modifies startupCtx
      ensures Is(DoApplyPending(s))
    {
      if pending.Some? {
        startupCtx.Cancel(pending.value);
      }
    }

    method CheckAt(w: TaskWrapper, step: Step, ghost n: nat, ghost list: seq<Task>)
      returns (start: bool, err: Option<Err>)
      requires AreTasks(tasks.added, stages, list) && n < |list| && w == tasks.added[n].1
      requires PhaseOf(list[n], step) == Idle
      modifies w
      ensures AreTasks(tasks.added, stages, list[n := CheckTask(list[n], step)])
      ensures err.Some? <==> InvalidOrder(list[n], step)
      ensures start <==> PhaseOf(CheckTask(list[n], step), step) == Launched
    {
      start, err := w.CheckStartStep(step);
      CheckTaskShape(list[n], step);
      hide CheckTask, InvalidOrder;
      forall i | 0 <= i < |list| && i != n
        ensures tasks.added[i].1.Valid() && tasks.added[i].1.model == list[i]
      {
        assert old(tasks.added[i].1.Valid());
      }
    }

    /** The check of one task of a stage; it is never out of order. */
    method CheckOne(w: TaskWrapper, step: Step, ghost s: State) returns (start: bool)
      requires Is(s) && Inv(s) && s.pc.Scan? && s.pc.step == step && InStage(s, s.pc.stage, s.pc.next)
      requires w == tasks.added[s.pc.next].1
      modifies w
      ensures Is(DoCheckNext(s))
      ensures start <==> PhaseOf(DoCheckNext(s).tasks[s.pc.next], step) == Launched
    {
      hide Inv, DoCheckNext, CheckTask, InvalidOrder, AreTasks;
      CheckNotCalled(s);
      CheckNeverInvalid(s);
      CheckShape(s);
      var err;
      start, err := CheckAt(w, step, s.pc.next, s.tasks);
      if err.Some? {
        assert false;
      }
    }

    /** The loop over the tasks of stage `k` came to the `j`th one, and the lifecycle from `s0` to `s`. */
    ghost predicate Walked(k: nat, step: Step, s0: State, s: State, j: nat, launched: seq<TaskWrapper>)
      reads this, tasks, startupCtx, Wrappers(tasks.added), AddedInfos(tasks.added), Finishes(tasks.added)
    {
      && Is(s) && Inv(s) && k < |stages| && s.pc.Scan? && s.pc == Scan(step, k, s.pc.next)
      && |tasks.added| == |s.tasks| == |s0.tasks| && s.pc.next <= |s.tasks|
      && Path(s0, CheckMoves(s.pc.next), s)
      && |OfStage(tasks.added[..s.pc.next], stages[k])| == j
      && LaunchedAre(launched, tasks.added, s, s.pc.next)
    }

    method WalkOn(k: nat, step: Step, j: nat, launched: seq<TaskWrapper>, ghost s0: State, ghost s: State)
      returns (more: seq<TaskWrapper>, ghost s': State)
      requires Walked(k, step, s0, s, j, launched) && j < |tasks.Listed(stages[k])|
      modifies Wrappers(tasks.added)
      ensures Walked(k, step, s0, s', j + 1, more) && tasks.tasks == old(tasks.tasks)
    {
      hide Inv, Path, DoCheckNext, AreTasks, OfStage;
      NextInList(tasks.added, stages[k], s.pc.next);
      ghost var before := ToNext(this, s0, s, launched);
      CheckMore(s0, before);
      CheckShape(before);
      var w := tasks.Listed(stages[k])[j];
      var start := CheckOne(w, step, before);
      s' := DoCheckNext(before);
      more := if start then launched + [w] else launched;
      LaunchedOneMore(this, before, s', more, start);
    }

    /**
     * The manager's loop over the tasks of a stage. It makes the moves of the lifecycle from its first check to its
     * last one, and no check fails: the tasks it launches are those whose step is launched then.
     */
    method RunStageStep(k: nat, step: Step, ghost s: State) returns (launched: seq<TaskWrapper>, ghost s': State)
      requires Is(s) && Inv(s) && s.pc == Scan(step, k, 0) && k < |stages|
      modifies Wrappers(tasks.added)
      ensures Is(s') && Path(s, CheckMoves(|s.tasks|), s') && s'.pc == Scan(step, k, |s'.tasks|)
      ensures LaunchedAre(launched, tasks.added, s', |s'.tasks|)
    {
      hide Inv, Path, AreTasks, OfStage, Walked, LaunchedAre, GoodStages;
      WalkBegins(this, k, step, s);
      launched := [];
      s' := s;
      var list := tasks.Listed(stages[k]);
      for j := 0 to |list|
        invariant Walked(k, step, s, s', j, launched) && list == tasks.Listed(stages[k]) && k < |stages|
      {
        launched, s' := WalkOn(k, step, j, launched, s, s');
      }
      s' := WalkedAll(this, k, step, s, s', launched);
    }
  }

  lemma WalkBegins(m: Manager, k: nat, step: Step, s: State)
    requires m.Is(s) && Inv(s) && s.pc == Scan(step, k, 0) && k < |m.stages|
    ensures m.Walked(k, step, s, s, 0, [])
  {
    hide Inv, Path;
    PathNil(s);
  }

  lemma WalkedAll(m: Manager, k: nat, step: Step, s0: State, s: State, launched: seq<TaskWrapper>) returns (s': State)
    requires k < |m.stages| && m.Walked(k, step, s0, s, |m.tasks.Listed(m.stages[k])|, launched)
    ensures m.Is(s') && Path(s0, CheckMoves(|s0.tasks|), s') && s'.pc == Scan(step, k, |s'.tasks|)
    ensures LaunchedAre(launched, m.tasks.added, s', |s'.tasks|)
  {
    hide Inv, Path, DoCheckNext, AreTasks, OfStage, LaunchedAre;
    NextInList(m.tasks.added, m.stages[k], s.pc.next);
    s' := ToNext(m, s0, s, launched);
  }

  /** Of the tasks before `n`, the launched ones are those of the stage whose step is launched. */
  ghost predicate LaunchedAre(launched: seq<TaskWrapper>, added: Added, s: State, n: nat)
    requires s.pc.Scan?
  {
    |added| == |s.tasks| &&
    forall t :: 0 <= t < |s.tasks| ==>
      (added[t].1 in launched <==>
         t < n && s.tasks[t].spec.stage == s.pc.stage && PhaseOf(s.tasks[t], s.pc.step) == Launched)
  }

  lemma ToNext(m: Manager, s0: State, s: State, launched: seq<TaskWrapper>) returns (s': State)
    requires m.Is(s) && Inv(s) && s.pc.Scan? && s.pc.next <= |s.tasks| && s.pc.stage < |m.stages|
    requires Path(s0, CheckMoves(s.pc.next), s) && LaunchedAre(launched, m.tasks.added, s, s.pc.next)
    ensures |m.tasks.added| == |s.tasks|
    ensures s' == s.(pc := Scan(s.pc.step, s.pc.stage, NextOf(m.tasks.added, m.stages[s.pc.stage], s.pc.next)))
    ensures m.Is(s') && Inv(s') && Path(s0, CheckMoves(s'.pc.next), s')
    ensures LaunchedAre(launched, m.tasks.added, s', s'.pc.next)
    ensures s'.pc.next < |s.tasks| ==> InStage(s', s'.pc.stage, s'.pc.next)
  {
    hide Inv, Path, TaskWrapper.Valid;
    var n := NextOf(m.tasks.added, m.stages[s.pc.stage], s.pc.next);
    SkipTo(s0, s, n);
    s' := s.(pc := Scan(s.pc.step, s.pc.stage, n));
  }

  lemma LaunchedOneMore(m: Manager, s: State, s': State, launched: seq<TaskWrapper>, start: bool)
    requires m.Is(s') && s.pc.Scan? && InStage(s, s.pc.stage, s.pc.next) && s'.pc.Scan?
    requires s'.pc == Scan(s.pc.step, s.pc.stage, s.pc.next + 1)
    requires s'.tasks == s.tasks[s.pc.next := CheckTask(s.tasks[s.pc.next], s.pc.step)]
    requires start <==> PhaseOf(s'.tasks[s.pc.next], s.pc.step) == Launched
    requires |m.tasks.added| == |s.tasks|
    requires start ==> launched != [] && launched[|launched| - 1] == m.tasks.added[s.pc.next].1
    requires LaunchedAre(if start then launched[..|launched| - 1] else launched, m.tasks.added, s, s.pc.next)
    ensures LaunchedAre(launched, m.tasks.added, s', s'.pc.next)
  {
    hide TaskWrapper.Valid;
    CheckTaskShape(s.tasks[s.pc.next], s.pc.step);
    if start {
      assert launched == launched[..|launched| - 1] + [m.tasks.added[s.pc.next].1];
    }
    hide CheckTask;
  }

  /** The moves of the manager that check `n` tasks. */
  function CheckMoves(n: nat): (moves: seq<Action>)
    ensures |moves| == n
  {
    seq(n, _ => CheckNext)
  }

  /** One more check. */
  lemma CheckMore(s0: State, s: State)
    requires Inv(s) && s.pc.Scan? && s.pc.next < |s.tasks| && Path(s0, CheckMoves(s.pc.next), s)
    ensures Path(s0, CheckMoves(s.pc.next + 1), DoCheckNext(s)) && Inv(DoCheckNext(s))
  {
    assert CheckMoves(s.pc.next + 1) == CheckMoves(s.pc.next) + [CheckNext];
    CheckIsMove(s);
    hide Inv, Path, Apply, Enabled, DoCheckNext, CheckMoves;
    PathAppend(s0, CheckMoves(s.pc.next), s, CheckNext);
    StepInv(s, CheckNext);
  }

  lemma CheckIsMove(s: State)
    requires Inv(s) && s.pc.Scan? && s.pc.next < |s.tasks|
    ensures ValidConfig(s.cfg) && Enabled(s, CheckNext) && Apply(s, CheckNext) == DoCheckNext(s)
  {
    hide TasksOK, DoCheckNext;
  }

  /** The next task of the stage at or after `i`, if there is one. */
  function NextOf(added: Added, stage: string, i: nat): (n: nat)
    requires i <= |added|
    ensures i <= n <= |added| && (n < |added| ==> added[n].0 == stage)
    ensures forall t :: i <= t < n ==> added[t].0 != stage
    decreases |added| - i
  {
    if i == |added| || added[i].0 == stage then i else NextOf(added, stage, i + 1)
  }

  lemma OfStageStep(added: Added, stage: string, i: nat)
    requires i < |added|
    ensures OfStage(added[..i + 1], stage)
         == OfStage(added[..i], stage) + if added[i].0 == stage then [added[i].1] else []
  {
    assert added[..i + 1][..i] == added[..i];
  }

  /** What lies between is not in the list of the stage. */
  lemma {:induction false} NextInList(added: Added, stage: string, i: nat)
    requires i <= |added|
    ensures var n, j := NextOf(added, stage, i), |OfStage(added[..i], stage)|;
      && |OfStage(added[..n], stage)| == j
      && (if n < |added| then j < |OfStage(added, stage)| && OfStage(added, stage)[j] == added[n].1
          else j == |OfStage(added, stage)|)
      && (n < |added| ==> |OfStage(added[..n + 1], stage)| == j + 1)
    decreases |added| - i
  {
    if i == |added| {
      assert added[..i] == added;
    } else {
      OfStageStep(added, stage, i);
      hide OfStage;
      if added[i].0 == stage {
        OfStageAt(added, stage, i);
      } else {
        NextInList(added, stage, i + 1);
      }
    }
  }

  /** Checking tasks of other stages only moves on. */
  lemma {:induction false} SkipTo(s0: State, s: State, n: nat)
    requires Inv(s) && s.pc.Scan? && s.pc.next <= n <= |s.tasks| && Path(s0, CheckMoves(s.pc.next), s)
    requires forall t :: s.pc.next <= t < n ==> s.tasks[t].spec.stage != s.pc.stage
    ensures Inv(s.(pc := Scan(s.pc.step, s.pc.stage, n)))
    ensures Path(s0, CheckMoves(n), s.(pc := Scan(s.pc.step, s.pc.stage, n)))
    decreases n - s.pc.next
  {
    hide Inv, Path;
    if s.pc.next < n {
      CheckMore(s0, s);
      assert DoCheckNext(s) == s.(pc := Scan(s.pc.step, s.pc.stage, s.pc.next + 1));
      SkipTo(s0, DoCheckNext(s), n);
    }
  }

  function OfAll(added: Added): set<TaskWrapper> { set i | 0 <= i < |added| :: added[i].1 }

  lemma StartCounted(list: StageTasks, stages: seq<string>, s: State)
    requires list.Valid() && AreTasks(list.added, stages, s.tasks)
    ensures CountIn(list.added, Start, list.tasks.Keys) > 0 <==> HasStartTask(s)
  {
    forall i | 0 <= i < |list.added|
      ensures list.added[i].0 in list.tasks.Keys
      ensures list.added[i].1.HasStep(Start) <==> Start in s.tasks[i].has
    {
      OfStageMember(list.added, list.added[i].0, list.added[i].1);
      assert list.Listed(list.added[i].0) != [];
    }
    CountPositive(list.added, Start, list.tasks.Keys);
    if HasStartTask(s) {
      var t :| 0 <= t < |s.tasks| && Start in s.tasks[t].has;
      assert list.added[t].1.HasStep(Start);
    }
  }
}
