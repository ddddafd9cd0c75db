/** Health probes of a service run in the stages management, initialize, ready and service. */
module Readiness {
  import opened Errors
  import opened Steps
  import opened Lifecycle
  import opened TaskInvariant
  import opened Invariant
  import opened History
  import opened Order
  import opened Stops
  import opened Skips
  import opened AllRuns
  import opened StepGuarantees
  import opened StageGuarantees

  datatype Probe = Startup | Liveness | Readiness

  datatype Status = Status(started: bool, terminating: bool)

  const OK := 200
  const PRECONDITION_FAILED := 412
  const SERVICE_UNAVAILABLE := 503

  /** The default answer to a probe. */
  function DefaultAnswer(probe: Probe, status: Status): nat {
    if probe == Liveness then OK
    else if !status.started then PRECONDITION_FAILED
    else if probe == Readiness && status.terminating then SERVICE_UNAVAILABLE
    else OK
  }

  /** Answers go from "not yet" to "ready" to "no more". */
  function AnswerRank(code: nat): nat {
    if code == PRECONDITION_FAILED then 0 else if code == OK then 1 else 2
  }

  const READY_STAGE := 2
  const SERVICE_STAGE := 3

  /** The tasks that signal the probes: a setup step in the ready stage, and a stop step in the service stage. */
  datatype Signals = Signals(startupProbe: bool, starter: nat, terminator: nat)

  predicate Wired(s: State, k: Signals) {
    && s.cfg.stages == 4
    && k.starter < |s.tasks| && k.terminator < |s.tasks|
    && s.tasks[k.starter].spec == Spec(READY_STAGE, Plain, false, {Setup}, s.tasks[k.starter].spec.ssm)
    && s.tasks[k.terminator].spec == Spec(SERVICE_STAGE, Plain, false, {Stop}, s.tasks[k.terminator].spec.ssm)
  }

  /** An answer, and how much of the run's history there was when it was given. */
  datatype Answer = Answer(probe: Probe, code: nat, at: nat)

  /** A run of the manager together with the two flags of the health handler, and the answers given so far. */
  datatype Service = Service(run: State, status: Status, answers: seq<Answer>)

  datatype Move = Act(a: Action) | SignalStarted | SignalTerminating | Ask(probe: Probe)

  /** The two tasks set their flag while they are called, and then return without an error. */
  predicate MayMove(v: Service, k: Signals, m: Move) {
    match m
    case Act(a) =>
      && Enabled(v.run, a)
      && (a.TaskReturn? && a.task == k.starter && a.step == Setup ==> v.status.started && a.out.err == None)
      && (a.TaskReturn? && a.task == k.terminator && a.step == Stop ==> v.status.terminating)
    case SignalStarted => InPhase(v.run, k.starter, Setup, Calling)
    case SignalTerminating => InPhase(v.run, k.terminator, Stop, Calling)
    case Ask(_) => true
  }

  /** The flags after a move: the two signals raise them, and nothing lowers them. */
  function AfterSignal(status: Status, m: Move): Status {
    match m
    case SignalStarted => status.(started := true)
    case SignalTerminating => status.(terminating := true)
    case _ => status
  }

  function DoMove(v: Service, k: Signals, m: Move): Service
    requires ValidConfig(v.run.cfg) && MayMove(v, k, m)
  {
    match m
    case Act(a) => v.(run := Apply(v.run, a))
    case Ask(probe) => v.(answers := v.answers + [Answer(probe, DefaultAnswer(probe, v.status), |v.run.hist|)])
    case _ => v.(status := AfterSignal(v.status, m))
  }

  ghost predicate Moves(v: Service, k: Signals, moves: seq<Move>, v': Service)
    decreases |moves|
  {
    if moves == [] then v == v'
    else ValidConfig(v.run.cfg) && MayMove(v, k, moves[0]) && Moves(DoMove(v, k, moves[0]), k, moves[1..], v')
  }

  /** The flags agree with what happened in the run. */
  predicate FlagsOK(v: Service, k: Signals) {
    && Wired(v.run, k)
    && (v.status.started ==> !k.startupProbe || CallE(k.starter, Setup) in v.run.hist)
    && (!k.startupProbe || ReturnE(k.starter, Setup) in v.run.hist ==> v.status.started)
    && (v.status.terminating ==> CallE(k.terminator, Stop) in v.run.hist)
    && (ReturnE(k.terminator, Stop) in v.run.hist ==> v.status.terminating)
  }

  /** What an answer says about the run at the time it was given. */
  predicate Meant(hist: seq<Event>, k: Signals, a: Answer) {
    && a.at <= |hist|
    && (a.code == OK || a.code == PRECONDITION_FAILED || a.code == SERVICE_UNAVAILABLE)
    && (a.probe == Liveness ==> a.code == OK)
    && (a.code == PRECONDITION_FAILED ==> k.startupProbe && ReturnE(k.starter, Setup) !in hist[..a.at])
    && (a.code != PRECONDITION_FAILED && a.probe != Liveness && k.startupProbe ==>
          CallE(k.starter, Setup) in hist[..a.at])
    && (a.code == SERVICE_UNAVAILABLE ==> a.probe == Readiness && CallE(k.terminator, Stop) in hist[..a.at])
    && (a.code == OK && a.probe == Readiness ==> ReturnE(k.terminator, Stop) !in hist[..a.at])
  }

  predicate AllMeant(v: Service, k: Signals) {
    forall i :: 0 <= i < |v.answers| ==> Meant(v.run.hist, k, v.answers[i])
  }

  /** The answers to each probe never went backward, and are not ahead of what the probe would answer now. */
  predicate AnswersOK(v: Service) {
    && (forall i, j :: 0 <= i < j < |v.answers| && v.answers[i].probe == v.answers[j].probe ==>
          AnswerRank(v.answers[i].code) <= AnswerRank(v.answers[j].code))
    && (forall i :: 0 <= i < |v.answers| ==>
          AnswerRank(v.answers[i].code) <= AnswerRank(DefaultAnswer(v.answers[i].probe, v.status)))
  }

  lemma ReturnEvent(s: State, a: Action, t: nat, step: Step)
    requires ValidConfig(s.cfg) && Enabled(s, a) && NewEvent(s, a) == Some(ReturnE(t, step))
    ensures a.TaskReturn? && a.task == t && a.step == step
  {
    hide TickClock, DoCancelBase;
  }

  /** The history grew by at most one event, and a flag is up when the call of its task returned. */
  lemma GrownFlags(v: Service, k: Signals, s': State, e: Option<Event>)
    requires FlagsOK(v, k) && Wired(s', k) && s'.hist == Grown(v.run.hist, e)
    requires e == Some(ReturnE(k.starter, Setup)) ==> v.status.started
    requires e == Some(ReturnE(k.terminator, Stop)) ==> v.status.terminating
    ensures FlagsOK(v.(run := s'), k)
  {
    hide Wired;
  }

  lemma ActFlags(v: Service, k: Signals, a: Action)
    requires RunOK(v.run) && FlagsOK(v, k) && MayMove(v, k, Act(a))
    ensures FlagsOK(v.(run := Apply(v.run, a)), k)
  {
    RunParts(v.run);
    hide RunOK, Inv, Apply, Enabled, NewEvent, Happened, Linked;
    var e := NewEvent(v.run, a);
    StepMakes(v.run, a);
    ConfigKept(v.run, a);
    SpecKept(v.run, a, k.starter);
    SpecKept(v.run, a, k.terminator);
    if e == Some(ReturnE(k.starter, Setup)) { ReturnEvent(v.run, a, k.starter, Setup); }
    if e == Some(ReturnE(k.terminator, Stop)) { ReturnEvent(v.run, a, k.terminator, Stop); }
    GrownFlags(v, k, Apply(v.run, a), e);
  }

  lemma CalledHappened(s: State, t: nat, step: Step)
    requires RunOK(s) && InPhase(s, t, step, Calling)
    ensures CallE(t, step) in s.hist
  {
    RunParts(s);
    hide RunOK, Inv;
    assert Happened(s, CallE(t, step));
  }

  lemma SignalKeeps(v: Service, k: Signals, m: Move)
    requires RunOK(v.run) && FlagsOK(v, k) && MayMove(v, k, m) && (m.SignalStarted? || m.SignalTerminating?)
    ensures ValidConfig(v.run.cfg) && FlagsOK(DoMove(v, k, m), k)
  {
    RunParts(v.run);
    hide RunOK, Inv, Linked, Enabled, Apply;
    if m.SignalStarted? {
      CalledHappened(v.run, k.starter, Setup);
    } else {
      CalledHappened(v.run, k.terminator, Stop);
    }
  }

  /** Raising a flag moves the answer of each probe forward. */
  lemma FlagsMoveForward(probe: Probe, status: Status, status': Status)
    requires status.started ==> status'.started
    requires status.terminating ==> status'.terminating
    ensures AnswerRank(DefaultAnswer(probe, status)) <= AnswerRank(DefaultAnswer(probe, status'))
  {
  }

  lemma StatusKeepsAnswers(v: Service, status: Status)
    requires AnswersOK(v)
    requires v.status.started ==> status.started
    requires v.status.terminating ==> status.terminating
    ensures AnswersOK(v.(status := status))
  {
    hide DefaultAnswer, AnswerRank;
    forall i | 0 <= i < |v.answers|
      ensures AnswerRank(v.answers[i].code) <= AnswerRank(DefaultAnswer(v.answers[i].probe, status))
    {
      FlagsMoveForward(v.answers[i].probe, v.status, status);
    }
  }

  lemma AskKeepsAnswers(v: Service, probe: Probe)
    requires AnswersOK(v)
    ensures AnswersOK(v.(answers := v.answers + [Answer(probe, DefaultAnswer(probe, v.status), |v.run.hist|)]))
  {
    hide DefaultAnswer, AnswerRank;
  }

  lemma AskIsMeant(v: Service, k: Signals, probe: Probe)
    requires FlagsOK(v, k) && AllMeant(v, k)
    ensures ValidConfig(v.run.cfg) ==> AllMeant(DoMove(v, k, Ask(probe)), k)
  {
    hide Wired;
    assert v.run.hist[..|v.run.hist|] == v.run.hist;
    assert Meant(v.run.hist, k, Answer(probe, DefaultAnswer(probe, v.status), |v.run.hist|));
    hide Meant;
  }

  /** The history only grows, so what was answered stays true of its time. */
  lemma MeantStays(v: Service, k: Signals, v': Service)
    requires AllMeant(v, k) && v'.answers == v.answers && v.run.hist <= v'.run.hist
    ensures AllMeant(v', k)
  {
    forall i | 0 <= i < |v'.answers|
      ensures Meant(v'.run.hist, k, v'.answers[i])
    {
      assert Meant(v.run.hist, k, v.answers[i]);
      assert v'.run.hist[..v.answers[i].at] == v.run.hist[..v.answers[i].at];
    }
  }

  lemma HistoryAdds(s: State, a: Action)
    requires RunOK(s) && Enabled(s, a)
    ensures ValidConfig(s.cfg) && s.hist <= Apply(s, a).hist
  {
    RunParts(s);
    hide RunOK, Inv, Linked, Apply, Enabled, NewEvent, Happened;
    StepMakes(s, a);
  }

  lemma MoveKeepsMeant(v: Service, k: Signals, m: Move)
    requires RunOK(v.run) && FlagsOK(v, k) && AllMeant(v, k) && MayMove(v, k, m)
    ensures ValidConfig(v.run.cfg) && AllMeant(DoMove(v, k, m), k)
  {
    RunParts(v.run);
    hide RunOK, Inv, Linked, Apply, Enabled, FlagsOK, AllMeant;
    match m
    case Act(a) => HistoryAdds(v.run, a); MeantStays(v, k, DoMove(v, k, m));
    case Ask(probe) => AskIsMeant(v, k, probe);
    case SignalStarted => MeantStays(v, k, DoMove(v, k, m));
    case SignalTerminating => MeantStays(v, k, DoMove(v, k, m));
  }

  lemma MoveKeepsService(v: Service, k: Signals, m: Move)
    requires RunOK(v.run) && FlagsOK(v, k) && AnswersOK(v) && MayMove(v, k, m)
    ensures ValidConfig(v.run.cfg)
    ensures RunOK(DoMove(v, k, m).run) && FlagsOK(DoMove(v, k, m), k) && AnswersOK(DoMove(v, k, m))
  {
    RunParts(v.run);
    hide RunOK, Inv, Linked, Apply, Enabled, AnswersOK, FlagsOK, Wired;
    match m
    case Act(a) => StepRun(v.run, a); ActFlags(v, k, a); SameAnswers(v, DoMove(v, k, m));
    case SignalStarted => SignalKeeps(v, k, m); StatusKeepsAnswers(v, v.status.(started := true));
    case SignalTerminating => SignalKeeps(v, k, m); StatusKeepsAnswers(v, v.status.(terminating := true));
    case Ask(probe) => AskKeepsAnswers(v, probe); SameFlags(v, k, DoMove(v, k, m));
  }

  lemma SameFlags(v: Service, k: Signals, v': Service)
    requires FlagsOK(v, k) && v'.run == v.run && v'.status == v.status
    ensures FlagsOK(v', k)
  {
  }

  lemma SameAnswers(v: Service, v': Service)
    requires AnswersOK(v) && v'.answers == v.answers && v'.status == v.status
    ensures AnswersOK(v')
  {
  }

  lemma {:induction false} MovesKeepService(v: Service, k: Signals, moves: seq<Move>, v': Service)
    requires RunOK(v.run) && FlagsOK(v, k) && AnswersOK(v) && AllMeant(v, k) && Moves(v, k, moves, v')
    ensures RunOK(v'.run) && FlagsOK(v', k) && AnswersOK(v') && AllMeant(v', k)
    decreases |moves|
  {
    hide RunOK, FlagsOK, AnswersOK, AllMeant, MayMove, DoMove;
    if moves != [] {
      MoveKeepsService(v, k, moves[0]);
      MoveKeepsMeant(v, k, moves[0]);
      MovesKeepService(DoMove(v, k, moves[0]), k, moves[1..], v');
    }
  }

  /** The service before its run: both tasks are added, and without a startup probe it counts as started. */
  predicate Wait(v: Service, k: Signals) {
    && Wired(v.run, k) && v.run.pc == Fresh && v.run.hist == []
    && v.status == Status(!k.startupProbe, false) && v.answers == []
  }

  // ---------- what the flags say about the run ----------

  lemma ServiceHolds(v0: Service, k: Signals, moves: seq<Move>, v: Service)
    requires Reachable(v0.run) && Wait(v0, k) && Moves(v0, k, moves, v)
    ensures RunOK(v.run) && FlagsOK(v, k) && AnswersOK(v) && AllMeant(v, k)
  {
    hide Reachable, RunOK, Moves;
    ReachableRun(v0.run);
    MovesKeepService(v0, k, moves, v);
  }

  /** The run of a service is a run of its manager. */
  lemma {:induction false} ServiceRuns(v: Service, k: Signals, moves: seq<Move>, v': Service)
    requires Reachable(v.run) && Moves(v, k, moves, v')
    ensures Reachable(v'.run)
    decreases |moves|
  {
    hide Reachable, Apply, Enabled;
    if moves != [] {
      if moves[0].Act? { NextReachable(v.run, moves[0].a); }
      ServiceRuns(DoMove(v, k, moves[0]), k, moves[1..], v');
    }
  }

  lemma NextReachable(s: State, a: Action)
    requires Reachable(s) && ValidConfig(s.cfg) && Enabled(s, a)
    ensures Reachable(Apply(s, a))
  {
    ReachableHistory(s);
    hide Apply, Enabled, Inv, Linked, NoRepeat, Ordered, StopsOK, SkipsOK;
    var acts :| Path(Init(s.cfg), acts, s);
    PathAppend(Init(s.cfg), acts, s, a);
    ConfigKept(s, a);
  }

  /** The setup of the task is over and succeeded, or it has none. */
  predicate SetupDone(task: Task) {
    Setup in task.log && task.setup == if Setup in task.spec.steps then Finished(None) else Idle
  }

  lemma StartCheckedSetup(task: Task, v: View, esc: bool, eh: ErrorHandler)
    requires TaskOK(task, v, esc, eh) && v.start >= 1
    ensures Setup in task.log && (task.setup == Idle || task.setup == Finished(None))
    ensures task.setup == Idle ==> Setup !in task.spec.steps
    ensures task.setup != Idle ==> Called(task.setup)
  {
  }

  /** A task of a later stage was called: all setups of the stages before it succeeded. */
  lemma EarlierSetupsDone(s: State, p: nat, step: Step, t: nat)
    requires Inv(s) && Linked(s) && CallE(p, step) in s.hist && (step == Setup || step == Stop)
    requires t < |s.tasks| && StageOf(s, t) < StageOf(s, p)
    ensures Setup in s.tasks[t].log && (s.tasks[t].setup == Idle || s.tasks[t].setup == Finished(None))
    ensures s.tasks[t].setup == Idle ==> Setup !in s.tasks[t].spec.steps
  {
    assert Happened(s, CallE(p, step));
    hide TaskOK, Linked, Happened, ViewOf, StageOf;
    TaskHolds(s, p);
    TaskHolds(s, t);
    TwoTasks(s, p, t);
    hide Inv;
    CalledAfterSetup(s.tasks[p], step, ViewOf(s, p), Escaped(s), s.cfg.errorHandler);
    StartCheckedSetup(s.tasks[t], ViewOf(s, t), Escaped(s), s.cfg.errorHandler);
  }

  lemma CalledAfterSetup(task: Task, step: Step, v: View, esc: bool, eh: ErrorHandler)
    requires TaskOK(task, v, esc, eh) && Called(PhaseOf(task, step)) && (step == Setup || step == Stop)
    ensures v.setup >= 1 && (step == Stop ==> v.stop >= 1)
  {
  }

  /** The run is shutting down or did so. */
  predicate Stopping(pc: PC) { ShutOpen(pc) || pc == Done(false) }

  lemma StopIsLate(s: State, q: nat)
    requires Inv(s) && Linked(s) && CallE(q, Stop) in s.hist
    ensures Stopping(s.pc)
  {
    assert Happened(s, CallE(q, Stop));
    hide TaskOK, Linked, ViewAt;
    TaskHolds(s, q);
    CalledAfterSetup(s.tasks[q], Stop, ViewOf(s, q), Escaped(s), s.cfg.errorHandler);
    StopViewAt(s.pc, s.ran, Started(s), StageOf(s, q), q);
  }

  lemma StopViewAt(pc: PC, ran: nat, started: nat, stage: nat, t: nat)
    ensures ViewAt(pc, ran, started, stage, t).stop >= 1 ==> Stopping(pc)
  {
  }

  lemma DoneReturned(s: State, p: nat)
    requires Linked(s) && p < |s.tasks| && s.tasks[p].setup.Finished?
    ensures ReturnE(p, Setup) in s.hist
  {
    assert Happened(s, ReturnE(p, Setup));
  }

  /**
   * Probes over a whole run of a service: the answers to each probe never go backward, from 412 to 200 to 503; only
   * the readiness probe is ever answered 503, and liveness is always 200.
   */
  lemma AnswersForward(v0: Service, k: Signals, moves: seq<Move>, v: Service, i: nat, j: nat)
    requires Reachable(v0.run) && Wait(v0, k) && Moves(v0, k, moves, v)
    requires i < j < |v.answers| && v.answers[i].probe == v.answers[j].probe
    ensures AnswerRank(v.answers[i].code) <= AnswerRank(v.answers[j].code)
  {
    hide Reachable, RunOK, FlagsOK, Moves, Wait;
    ServiceHolds(v0, k, moves, v);
  }

  /** With a startup probe, the service counts as started only after all setups of the stages before the ready one. */
  lemma StartedAfterSetups(v0: Service, k: Signals, moves: seq<Move>, v: Service, t: nat)
    requires Reachable(v0.run) && Wait(v0, k) && Moves(v0, k, moves, v)
    requires k.startupProbe && v.status.started && t < |v.run.tasks| && StageOf(v.run, t) < READY_STAGE
    ensures SetupDone(v.run.tasks[t])
  {
    hide Reachable, RunOK, Moves, Wait;
    ServiceHolds(v0, k, moves, v);
    RunParts(v.run);
    hide Inv, Linked, AnswersOK;
    EarlierSetupsDone(v.run, k.starter, Setup, t);
    FinishedHad(v.run, t);
  }

  /**
   * What each answer means. With a startup probe, 200 to the startup or the readiness probe says that every setup of
   * the stages before the ready one that is ever called has returned, and 412 says that the task of the ready stage did
   * not return yet; 503 is for the readiness probe alone, once the stop step of the service stage was called, and after
   * that step returned the readiness probe is not answered 200.
   */
  lemma AnswersMean(v0: Service, k: Signals, moves: seq<Move>, v: Service, i: nat, t: nat)
    requires Reachable(v0.run) && Wait(v0, k) && Moves(v0, k, moves, v)
    requires i < |v.answers| && t < |v.run.tasks| && StageOf(v.run, t) < READY_STAGE
    ensures Meant(v.run.hist, k, v.answers[i])
    ensures k.startupProbe && v.answers[i].probe != Liveness && v.answers[i].code == OK ==>
              && CheckE(t, Start) in v.run.hist[..v.answers[i].at]
              && (CallE(t, Setup) in v.run.hist ==> ReturnE(t, Setup) in v.run.hist[..v.answers[i].at])
  {
    hide Reachable, RunOK, Moves, Wait;
    ServiceHolds(v0, k, moves, v);
    ServiceRuns(v0, k, moves, v);
    var a, hist := v.answers[i], v.run.hist;
    assert Meant(hist, k, a);
    hide AllMeant, AnswersOK;
    if k.startupProbe && a.probe != Liveness && a.code == OK {
      var j :| 0 <= j < a.at && hist[..a.at][j] == CallE(k.starter, Setup);
      SetupBarrier(v.run, j, t);
      assert hist[..j] <= hist[..a.at];
    }
  }

  lemma FinishedHad(s: State, t: nat)
    requires Inv(s) && t < |s.tasks|
    ensures s.tasks[t].setup != Idle ==> Setup in s.tasks[t].spec.steps
  {
    hide TaskOK;
    TaskHolds(s, t);
    NotIdleHad(s.tasks[t], ViewOf(s, t), Escaped(s), s.cfg.errorHandler);
  }

  lemma NotIdleHad(task: Task, v: View, esc: bool, eh: ErrorHandler)
    requires TaskOK(task, v, esc, eh)
    ensures task.setup != Idle ==> Setup in task.spec.steps
  {
  }

  /** It counts as terminating only after it started, and while the run shuts down. */
  lemma TerminatingAfterStarted(v0: Service, k: Signals, moves: seq<Move>, v: Service)
    requires Reachable(v0.run) && Wait(v0, k) && Moves(v0, k, moves, v) && v.status.terminating
    ensures v.status.started && Stopping(v.run.pc)
    ensures DefaultAnswer(Readiness, v.status) == SERVICE_UNAVAILABLE
  {
    hide Reachable, RunOK, Moves, Wait;
    ServiceHolds(v0, k, moves, v);
    RunParts(v.run);
    hide Inv, Linked, AnswersOK, Stopping;
    EarlierSetupsDone(v.run, k.terminator, Stop, k.starter);
    StopIsLate(v.run, k.terminator);
    DoneReturned(v.run, k.starter);
  }
}
