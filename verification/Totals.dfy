/** Sums of errors over the tasks of a state. */
module Totals {
  import opened Errors
  import opened Steps
  import opened Lifecycle

  function Total(tasks: seq<Task>, f: Task -> multiset<Err>): multiset<Err> {
    if tasks == [] then multiset{} else Total(tasks[..|tasks| - 1], f) + f(tasks[|tasks| - 1])
  }

  lemma {:induction false} TotalUpdate(tasks: seq<Task>, t: nat, task: Task, f: Task -> multiset<Err>)
    requires t < |tasks|
    ensures Total(tasks[t := task], f) + f(tasks[t]) == Total(tasks, f) + f(task)
    decreases |tasks|
  {
    var n := |tasks| - 1;
    if t == n {
      assert tasks[t := task][..n] == tasks[..n];
    } else {
      assert tasks[t := task][..n] == tasks[..n][t := task];
      TotalUpdate(tasks[..n], t, task, f);
      Regroup(Total(tasks[..n][t := task], f), Total(tasks[..n], f), f(tasks[n]), f(tasks[t]), f(task));
    }
  }

  lemma Regroup(a: multiset<Err>, b: multiset<Err>, last: multiset<Err>, x: multiset<Err>, y: multiset<Err>)
    requires a + x == b + y
    ensures a + last + x == b + last + y
  {
    assert a + last + x == a + x + last;
  }

  lemma CancelTerm(a: multiset<Err>, b: multiset<Err>, x: multiset<Err>)
    requires a + x == b + x
    ensures a == b
  {
    forall e: Err
      ensures a[e] == b[e]
    {
      assert (a + x)[e] == a[e] + x[e];
      assert (b + x)[e] == b[e] + x[e];
    }
  }

  lemma TotalUnchanged(tasks: seq<Task>, t: nat, task: Task, f: Task -> multiset<Err>)
    requires t < |tasks| && f(task) == f(tasks[t])
    ensures Total(tasks[t := task], f) == Total(tasks, f)
  {
    TotalUpdate(tasks, t, task, f);
    CancelTerm(Total(tasks[t := task], f), Total(tasks, f), f(task));
  }

  lemma TotalAppend(tasks: seq<Task>, task: Task, f: Task -> multiset<Err>)
    ensures Total(tasks + [task], f) == Total(tasks, f) + f(task)
  {
    assert (tasks + [task])[..|tasks|] == tasks;
  }

  lemma {:induction false} TotalEmpty(tasks: seq<Task>, f: Task -> multiset<Err>)
    ensures Total(tasks, f) == multiset{} <==> forall t :: 0 <= t < |tasks| ==> f(tasks[t]) == multiset{}
    decreases |tasks|
  {
    if tasks != [] {
      TotalEmpty(tasks[..|tasks| - 1], f);
      assert forall t :: 0 <= t < |tasks| - 1 ==> tasks[..|tasks| - 1][t] == tasks[t];
      if Total(tasks, f) == multiset{} {
        assert Total(tasks[..|tasks| - 1], f) <= Total(tasks, f);
        assert f(tasks[|tasks| - 1]) <= Total(tasks, f);
        assert Total(tasks[..|tasks| - 1], f) == multiset{};
        forall t | 0 <= t < |tasks|
          ensures f(tasks[t]) == multiset{}
        {
          if t < |tasks| - 1 { assert tasks[..|tasks| - 1][t] == tasks[t]; }
        }
      }
    }
  }

  lemma {:induction false} TotalMember(tasks: seq<Task>, f: Task -> multiset<Err>, e: Err)
    ensures e in Total(tasks, f) <==> exists t :: 0 <= t < |tasks| && e in f(tasks[t])
    decreases |tasks|
  {
    if tasks != [] {
      var n := |tasks| - 1;
      TotalMember(tasks[..n], f, e);
      assert forall t :: 0 <= t < n ==> tasks[..n][t] == tasks[t];
    }
  }

  /** The errors of a list whose sum it is come from the tasks. */
  lemma ErrorsFrom(es: seq<Err>, tasks: seq<Task>, f: Task -> multiset<Err>)
    requires multiset(es) == Total(tasks, f)
    ensures forall e :: e in es <==> exists t :: 0 <= t < |tasks| && e in f(tasks[t])
  {
    forall e
      ensures e in es <==> exists t :: 0 <= t < |tasks| && e in f(tasks[t])
    {
      assert e in es <==> e in multiset(es);
      TotalMember(tasks, f, e);
    }
  }

  /** The error a step reported to the manager. */
  function ReportOf(p: Phase): Option<Err> {
    if p.Reported? || p.Finished? then p.err else None
  }

  predicate StartReported(task: Task) { task.start.Reported? || task.start.Finished? }

  /** A failed setup of a task of the stage, as it is reported. */
  function SetupFailure(stage: nat): Task -> multiset<Err> {
    (task: Task) =>
      if task.spec.stage == stage && ReportOf(task.setup).Some? then
        multiset{InitializationError(ReportOf(task.setup).value)}
      else multiset{}
  }

  /** The errors of the stop and teardown steps of a task, lists flattened one level. */
  function ShutdownFailure(): Task -> multiset<Err> {
    (task: Task) => multiset(Flat(ReportOf(task.stop))) + multiset(Flat(ReportOf(task.teardown)))
  }

  /** Reporting a failed setup adds its error to the failures of its stage. */
  lemma FailureAdds(tasks: seq<Task>, t: nat, stage: nat)
    requires t < |tasks| && tasks[t].spec.stage == stage
    requires tasks[t].setup.Settled? && tasks[t].setup.err.Some?
    ensures Total(tasks[t := tasks[t].(setup := Reported(tasks[t].setup.err))], SetupFailure(stage))
         == Total(tasks, SetupFailure(stage)) + multiset{InitializationError(tasks[t].setup.err.value)}
  {
    var task := tasks[t];
    var task' := task.(setup := Reported(task.setup.err));
    assert SetupFailure(stage)(task) == multiset{};
    assert SetupFailure(stage)(task') == multiset{InitializationError(task.setup.err.value)};
    hide SetupFailure;
    TotalUpdate(tasks, t, task', SetupFailure(stage));
  }

  /** A task that does not report a setup does not change the failures of any stage. */
  lemma FailuresSame(tasks: seq<Task>, t: nat, task': Task, stage: nat)
    requires t < |tasks| && task'.spec == tasks[t].spec && ReportOf(task'.setup) == ReportOf(tasks[t].setup)
    ensures Total(tasks[t := task'], SetupFailure(stage)) == Total(tasks, SetupFailure(stage))
  {
    assert SetupFailure(stage)(task') == SetupFailure(stage)(tasks[t]);
    hide SetupFailure;
    TotalUnchanged(tasks, t, task', SetupFailure(stage));
  }
}
