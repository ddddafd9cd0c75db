/** The steps of a task, and the checks made on the log of the steps a task has done. */
module Steps {
  import opened Errors

  datatype Step = Setup | Start | Stop | Teardown

  /** The canonical order of the steps. */
  function Rank(step: Step): nat {
    match step
    case Setup => 0
    case Start => 1
    case Stop => 2
    case Teardown => 3
  }

  const ALL_STEPS: seq<Step> := [Setup, Start, Stop, Teardown]

  lemma EveryStep()
    ensures forall step: Step :: step in ALL_STEPS
  {
    forall step: Step
      ensures step in ALL_STEPS
    {
      match step { case Setup => case Start => case Stop => case Teardown => }
      assert ALL_STEPS[Rank(step)] == step;
    }
  }

  /** The steps of a task that gives this list; without one it has all of them. */
  function Listed(steps: Option<seq<Step>>): (list: seq<Step>)
    ensures steps == None ==> forall step: Step :: step in list
    ensures steps.Some? ==> list == steps.value
  {
    EveryStep();
    if steps.Some? then steps.value else ALL_STEPS
  }

  /** Whether the step before `step` was done; none if `step` cannot come after what was done. */
  function PrevDone(log: seq<Step>, step: Step): Option<bool> {
    match step
    case Setup =>
      if Setup in log || Start in log || Stop in log || Teardown in log then None else Some(true)
    case Start =>
      if Start in log || Stop in log || Teardown in log then None else Some(Setup in log)
    case Stop =>
      if Stop in log || Teardown in log then None else Some(Start in log)
    case Teardown =>
      if Teardown in log then None else Some(Setup in log)
  }

  /** A task can start its own steps, and the stop step if it has a start step manager. */
  predicate CanStart(has: set<Step>, ssm: bool, step: Step) {
    step in has || (step == Stop && ssm)
  }

  datatype Verdict = Launch | Pass | Invalid

  datatype Checked = Checked(log: seq<Step>, verdict: Verdict)

  /** The check made by the manager before launching a step: a step the task lacks is recorded at once. */
  function Check(log: seq<Step>, has: set<Step>, ssm: bool, step: Step): Checked {
    match PrevDone(log, step)
    case None => Checked(log, Invalid)
    case Some(prev) =>
      if CanStart(has, ssm, step) then Checked(log, if prev then Launch else Pass)
      else Checked(if prev then log + [step] else log, Pass)
  }

  predicate NoRepeat<T(==)>(s: seq<T>) {
    forall i, j :: 0 <= i < j < |s| ==> s[i] != s[j]
  }

  /** No step twice, setup first, and a stop only after a start. */
  predicate WellLogged(log: seq<Step>) {
    && NoRepeat(log)
    && (log != [] ==> log[0] == Setup)
    && (forall j :: 0 <= j < |log| && log[j] == Stop ==> Start in log[..j])
  }

  /** The log follows the order of the steps, possibly skipping some. */
  predicate InOrder(log: seq<Step>) {
    forall i, j :: 0 <= i < j < |log| ==> Rank(log[i]) < Rank(log[j])
  }

  /** `log` is a subsequence of `of`. */
  predicate Subsequence<T(==)>(log: seq<T>, of: seq<T>) {
    if log == [] then true
    else if of == [] then false
    else if log[0] == of[0] then Subsequence(log[1..], of[1..])
    else Subsequence(log, of[1..])
  }

  lemma {:induction false} InOrderIsSubsequence(log: seq<Step>, from: nat)
    requires InOrder(log) && from <= 4
    requires forall i :: 0 <= i < |log| ==> from <= Rank(log[i])
    ensures Subsequence(log, ALL_STEPS[from..])
    decreases 4 - from
  {
    if log != [] {
      assert Rank(log[0]) < 4;
      assert ALL_STEPS[from..][1..] == ALL_STEPS[from + 1..];
      assert Rank(ALL_STEPS[from]) == from;
      if log[0] == ALL_STEPS[from] {
        InOrderIsSubsequence(log[1..], from + 1);
      } else {
        InOrderIsSubsequence(log, from + 1);
      }
    }
  }
}
