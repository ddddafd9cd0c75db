/** Instance tasks, which keep the data made by their setup step, and future tasks, which also resolve a future. */
module InstanceTasks {
  import opened Errors
  import opened Steps
  import Lifecycle
  import Builds
  import Futures

  type Data = Lifecycle.Data

  /** What the setup function of the user returned, and the data as a task if it is one. */
  datatype SetupReturn = SetupReturn(err: Option<Err>, data: Data, asTask: Option<Builds.ParentRef>)

  /** The data that a setup makes. */
  function Made(data: Option<Data>, ret: SetupReturn): Option<Data> {
    if data.Some? || ret.err.Some? then None else Some(ret.data)
  }

  /** The steps a task tells of. */
  function Told(node: Builds.Node): set<Step> { set step | step in Builds.StepsOf(node) }

  class InstanceTask {
    const build: Builds.BuildTask
    const parentFromSetup: bool
    var data: Option<Data>
    ghost var calls: seq<SetupReturn>          // what the setup function returned, each time it was called

    /** The setup function is called until it made the data, and then never again. */
    ghost predicate Valid()
      reads this, build, build.repr
    {
      && build.Valid()
      && (forall i :: 0 <= i < |calls| - 1 ==> calls[i].err.Some?)
      && data == if calls == [] then None else Made(None, calls[|calls| - 1])
    }

    /**
     * Builds the task: its own options first, then the setup step, then the other steps, which read the data before
     * they are called.
     */
    constructor (setup: Option<Builds.Callback>, steps: map<Step, Option<Builds.Callback>>,
                 options: seq<Builds.BuildOption>, parentFromSetup: bool)
      requires Setup !in steps && forall i :: 0 <= i < |options| ==> !options[i].WithStep?
      requires forall i :: 0 <= i < |options| && options[i].WithParent? ==> Builds.ProperParent(options[i].parent)
      ensures Valid() && data == None && calls == [] && this.parentFromSetup == parentFromSetup && fresh(build)
      ensures Builds.UpToDate(build.Live()) && build.stepFunc == steps[Setup := setup]
      ensures build.options == Builds.GivenBy(options).options && build.skipped == Builds.GivenBy(options).skipped
      ensures build.parent == Builds.GivenBy(options).parent && build.name == Builds.GivenBy(options).name
    {
      var opts := AllOptions(setup, steps, options);
      build := new Builds.BuildTask(opts);
      this.parentFromSetup := parentFromSetup;
      data, calls := None, [];
    }

    /** The data, once a call of the setup function succeeded; an error until then. */
    method TaskData() returns (made: Option<Data>, err: Option<Err>)
      requires Valid()
      ensures err == None <==> exists i :: 0 <= i < |calls| && calls[i].err == None
      ensures forall i :: 0 <= i < |calls| && calls[i].err == None ==> made == Some(calls[i].data)
      ensures err.Some? ==> made == None && err == Some(Wrapped([ErrNotInitialized]))
    {
      assert data.Some? ==> calls[|calls| - 1].err == None;
      made := data;
      err := if data == None then Some(Wrapped([ErrNotInitialized])) else None;
    }

    /**
     * The setup step: the data is made once, and may become the parent of the task. It returns as the task of the
     * lifecycle does, with the outcome `out`, whose steps are those the task tells of from then on.
     */
    method RunSetup(ret: SetupReturn, ghost model: Lifecycle.Task)
      returns (err: Option<Err>, ghost out: Lifecycle.Outcome)
      requires Valid() && data == model.data && model.spec.kind != Lifecycle.Plain && model.has == Told(build.Live())
      requires (ret.asTask.Some? ==> Builds.ProperParent(ret.asTask.value))
      requires ret.asTask.Some? && ret.asTask.value.BuildParent? ==> build !in ret.asTask.value.build.repr
      modifies this`data, this`calls, build
      ensures calls == if old(data).Some? then old(calls) else old(calls) + [ret]
      ensures Valid() && data == if Made(old(data), ret).Some? then Made(old(data), ret) else old(data)
      ensures old(data).Some? ==> err == Some(ErrAlreadyInitialized)
      ensures old(data) == None && ret.err.Some? ==> err == ret.err
      ensures Made(old(data), ret).Some? && !parentFromSetup ==> err == None
      ensures Made(old(data), ret).Some? && parentFromSetup ==>
                if ret.asTask == None then err == Some(Wrapped([ErrInitialization]))
                else
                  && build.parent == ret.asTask.value && Builds.UpToDate(build.Live())
                  && err == Builds.InitErrorOf(build.Live())
      ensures out.raw == err && out.made == Made(old(data), ret) && (out.made == None ==> err.Some?)
      ensures Lifecycle.Remade(model, Setup) ==> out.raw == Some(ErrAlreadyInitialized) && out.has == model.has
      ensures data == Lifecycle.ReturnTask(model, Setup, out).data && out.has == Told(build.Live())
    {
      hide Builds.UpToDate;
      out := Lifecycle.Outcome(None, None, Made(data, ret), model.has, model.ssm);
      if data.Some? {
        out := out.(raw := Some(ErrAlreadyInitialized));
        return Some(ErrAlreadyInitialized), out;
      }
      calls := calls + [ret];
      if ret.err.Some? {
        out := out.(raw := ret.err);
        return ret.err, out;
      }
      data := Some(ret.data);
      if parentFromSetup {
        if ret.asTask == None {
          err := Some(Wrapped([ErrInitialization]));
        } else {
          err := build.SetParent(ret.asTask.value);
        }
      } else {
        err := None;
      }
      out := out.(raw := err, has := Told(build.Live()));
    }
  }

  lemma SetupAside(done: map<Step, Option<Builds.Callback>>, setup: Option<Builds.Callback>, step: Step,
                   f: Option<Builds.Callback>)
    requires step != Setup
    ensures done[Setup := setup][step := f] == done[step := f][Setup := setup]
  {
  }

  lemma {:induction false} NoStepsGiven(opts: seq<Builds.BuildOption>)
    requires forall i :: 0 <= i < |opts| ==> !opts[i].WithStep?
    ensures Builds.GivenBy(opts).stepFunc == map[]
    decreases |opts|
  {
    if opts != [] { NoStepsGiven(opts[..|opts| - 1]); }
  }

  /** The options of the built task; the steps are visited in no particular order. */
  method AllOptions(setup: Option<Builds.Callback>, steps: map<Step, Option<Builds.Callback>>,
                    options: seq<Builds.BuildOption>) returns (opts: seq<Builds.BuildOption>)
    requires Setup !in steps && forall i :: 0 <= i < |options| ==> !options[i].WithStep?
    requires forall i :: 0 <= i < |options| && options[i].WithParent? ==> Builds.ProperParent(options[i].parent)
    ensures Builds.GivenBy(opts) == Builds.GivenBy(options).(stepFunc := steps[Setup := setup])
    ensures forall i :: 0 <= i < |opts| && opts[i].WithParent? ==> Builds.ProperParent(opts[i].parent)
  {
    hide Builds.GivenBy;
    NoStepsGiven(options);
    Builds.GivenMore(options, Builds.WithStep(Setup, setup));
    opts := options + [Builds.WithStep(Setup, setup)];
    var left := steps.Keys;
    ghost var done: map<Step, Option<Builds.Callback>> := map[];
    while left != {}
      invariant left <= steps.Keys && done == steps - left
      invariant Builds.GivenBy(opts) == Builds.GivenBy(options).(stepFunc := done[Setup := setup])
      invariant forall i :: 0 <= i < |opts| && opts[i].WithParent? ==> Builds.ProperParent(opts[i].parent)
      decreases |left|
    {
      var step :| step in left;
      Builds.GivenMore(opts, Builds.WithStep(step, steps[step]));
      SetupAside(done, setup, step, steps[step]);
      opts := opts + [Builds.WithStep(step, steps[step])];
      done, left := done[step := steps[step]], left - {step};
    }
    assert steps - left == steps;
  }

  /** A task that is provided by its setup: what the setup returns becomes its parent. */
  method Provider(provider: Option<Builds.Callback>, options: seq<Builds.BuildOption>) returns (task: InstanceTask)
    requires forall i :: 0 <= i < |options| ==> !options[i].WithStep?
    requires forall i :: 0 <= i < |options| && options[i].WithParent? ==> Builds.ProperParent(options[i].parent)
    ensures task.Valid() && task.parentFromSetup && task.build.stepFunc == map[Setup := provider]
  {
    task := new InstanceTask(provider, map[], options, true);
  }

  // ---------- future tasks ----------

  /** The future holds what the lifecycle's task resolved it with. */
  predicate HoldsResolution(cell: Futures.Cell<Data>, resolved: seq<Lifecycle.Resolution>, zero: Data) {
    if resolved == [] then cell == Futures.Unresolved
    else
      match resolved[0]
      case Value(data) => cell == Futures.Holds(data, None)
      case Failure(err) => cell == Futures.Holds(zero, Some(err))
  }

  /** The reader got the value, and no error or one in which the error is found. */
  predicate Carries(r: Futures.Read<Data>, value: Data, error: Option<Err>) {
    && r.Got? && r.value == value && (r.error == None <==> error == None)
    && (error.Some? ==> Is(r.error.value, error.value))
  }

  /** An error that was read is marked as one of resolving the data. */
  function Marked(r: Futures.Read<Data>): Futures.Read<Data> {
    match r
    case Got(data, Some(err)) => Futures.Got(data, Some(Wrapped([err])))
    case GaveUp(why) => Futures.GaveUp(Wrapped([why]))
    case _ => r
  }

  lemma FutureReturns(model: Lifecycle.Task, out: Lifecycle.Outcome)
    requires model.spec.kind == Lifecycle.Future
    ensures Lifecycle.ReturnTask(model, Setup, out).cell ==
              if model.data.Some? then model.cell
              else if out.made.Some? then model.cell + [Lifecycle.Value(out.made.value)]
              else if out.raw.Some? then model.cell + [Lifecycle.Failure(out.raw.value)]
              else model.cell
  {
  }

  lemma WrappedIs(r: Futures.Read<Data>)
    ensures r.Got? ==> Carries(Marked(r), r.value, r.error)
    ensures r.GaveUp? ==> Marked(r).GaveUp? && Is(Marked(r).why, r.why)
    ensures r.NotResolved? ==> Marked(r) == r
  {
    if r.Got? && r.error.Some? { SingleIs(r.error.value); }
    if r.GaveUp? { SingleIs(r.why); }
  }

  class FutureTask {
    const task: InstanceTask
    const future: Futures.Future<Data>

    ghost predicate Valid()
      reads this, task, task.build, task.build.repr, future, future.l, future.l.closedChan, future.l.done
    {
      task.Valid() && future.Valid()
    }

    constructor (task: InstanceTask, future: Futures.Future<Data>)
      requires task.Valid() && future.Valid()
      ensures Valid() && this.task == task && this.future == future
    {
      this.task, this.future := task, future;
    }

    /**
     * The setup step: what the setup function returned resolves the future, before the data is kept. It resolves it
     * just as the task of the lifecycle does, and panics only if the future was resolved before. A setup function that
     * failed is a setup that failed.
     */
    method RunSetup(ret: SetupReturn, ghost model: Lifecycle.Task)
      returns (err: Option<Err>, panicked: bool, ghost out: Lifecycle.Outcome)
      requires Valid() && task.data == model.data && model.spec.kind == Lifecycle.Future
      requires model.has == Told(task.build.Live())
      requires HoldsResolution(future.Cell(), model.cell, future.zero)
      requires ret.asTask.Some? ==> Builds.ProperParent(ret.asTask.value)
      requires ret.asTask.Some? && ret.asTask.value.BuildParent? ==> task.build !in ret.asTask.value.build.repr
      modifies task`data, task`calls, task.build, future`v, future`err, future.l`done,
               if future.l.Resolved() then {} else {future.l.done}
      ensures Valid() && (panicked <==> old(task.data == None && future.Cell() != Futures.Unresolved))
      ensures !panicked ==>
                && task.data == Lifecycle.ReturnTask(model, Setup, out).data
                && HoldsResolution(future.Cell(), Lifecycle.ReturnTask(model, Setup, out).cell, future.zero)
                && out.raw == err && out.made == Made(old(task.data), ret) && out.has == Told(task.build.Live())
      ensures !panicked && old(task.data).Some? ==> err == Some(ErrAlreadyInitialized)
      ensures !panicked && old(task.data) == None && ret.err.Some? ==>
                err == ret.err && future.Cell() == Futures.Holds(future.zero, ret.err)
      ensures !panicked && old(task.data) == None && ret.err == None ==>
                && future.Cell() == Futures.Holds(ret.data, None)
                && err == if !task.parentFromSetup then None
                          else if ret.asTask == None then Some(Wrapped([ErrInitialization]))
                          else Builds.InitErrorOf(task.build.Live())
    {
      hide Builds.UpToDate, Told, Lifecycle.ReturnTask;
      panicked := false;
      out := Lifecycle.Outcome(None, None, None, model.has, model.ssm);
      if task.data == None {
        panicked := ResolveWith(ret);
        if panicked { return None, true, out; }
      }
      err, out := task.RunSetup(ret, model);
      FutureReturns(model, out);
    }

    /** What the setup function returned, given to the future. */
    method ResolveWith(ret: SetupReturn) returns (panicked: bool)
      requires Valid()
      modifies future`v, future`err, future.l`done, if future.l.Resolved() then {} else {future.l.done}
      ensures Valid() && (panicked <==> old(future.Cell() != Futures.Unresolved))
      ensures !panicked && ret.err.Some? ==> future.Cell() == Futures.Holds(future.zero, ret.err)
      ensures !panicked && ret.err == None ==> future.Cell() == Futures.Holds(ret.data, None)
    {
      var how := if ret.err.Some? then Futures.GiveError(ret.err) else Futures.GiveValue(ret.data);
      panicked := future.Resolve(how);
    }

    /** The skipped callback resolves the future with the reason, unless it is resolved already. */
    method Skipped(cause: Option<Err>, ghost model: Lifecycle.Task) returns (panicked: bool)
      requires Valid() && model.spec.kind == Lifecycle.Future
      requires HoldsResolution(future.Cell(), model.cell, future.zero)
      modifies future`v, future`err, future.l`done, if future.l.Resolved() then {} else {future.l.done}
      ensures Valid() && !panicked
      ensures HoldsResolution(future.Cell(), Lifecycle.SkipTask(model, cause).cell, future.zero)
    {
      var done := future.Done();
      if done.closed { return false; }
      var why := if cause.Some? then Wrapped([ErrTaskSkipped, cause.value]) else ErrTaskSkipped;
      panicked := future.Resolve(Futures.GiveError(Some(why)));
    }

    /**
     * The value, with the error marked as one of the task's data: read at once, or when the wait is over because the
     * future is resolved or the context of the caller ended. When both are, either may be seen first. `NotResolved`
     * is itself an error, which the source marks in the same way.
     */
    method Value(wait: bool, ended: Option<Err>, contextFirst: bool) returns (r: Futures.Read<Data>)
      requires Valid() && (wait ==> ended.Some? || future.Cell() != Futures.Unresolved)
      modifies future.l`done
      ensures Valid() && future.Cell() == old(future.Cell())
      ensures var gaveUp := wait && ended.Some? && (contextFirst || future.Cell() == Futures.Unresolved);
        r == if gaveUp then Futures.GaveUp(Wrapped([ended.value])) else Marked(Futures.ReadOf(future.Cell()))
      ensures r == Futures.NotResolved ==> !wait && future.Cell() == Futures.Unresolved
      ensures r.Got? ==> future.Cell().Holds? && Carries(r, future.Cell().value, future.Cell().error)
      ensures r.GaveUp? ==> wait && ended.Some? && Is(r.why, ended.value)
    {
      if wait {
        r := future.Wait(ended, contextFirst);
      } else {
        r := future.Poll();
      }
      WrappedIs(r);
      r := Marked(r);
    }
  }
}
