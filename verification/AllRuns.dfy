/** Everything that holds of every reachable state, in one place. */
module AllRuns {
  import opened Errors
  import opened Steps
  import opened Lifecycle
  import opened Invariant
  import opened History
  import opened Order
  import opened Cancels
  import opened Causes
  import opened Shutdown
  import opened Outcomes
  import opened Measure
  import opened Liveness
  import opened Stops
  import opened Skips

  ghost predicate RunOK(s: State) {
    && ValidConfig(s.cfg)
    && Inv(s)
    && Linked(s) && NoRepeat(s.hist) && Ordered(s) && StopsOK(s) && SkipsOK(s)
    && CausesOK(s) && CancelsOK(s) && ReasonOK(s) && CountOK(s)
    && ErrorsOK(s) && ClockOK(s) && OrdinaryOK(s) && OutOK(s)
  }

  lemma InitRun(cfg: Config)
    requires ValidConfig(cfg)
    ensures RunOK(Init(cfg))
  {
    hide Inv;
    InitInv(cfg);
    assert forall e :: !Happened(Init(cfg), e);
  }

  lemma StepRun(s: State, a: Action)
    requires RunOK(s) && Enabled(s, a)
    ensures RunOK(Apply(s, a))
  {
    hide Inv, Linked, NoRepeat, Ordered, StopsOK, SkipsOK, CausesOK, CancelsOK, ReasonOK, CountOK;
    hide ErrorsOK, ClockOK, OrdinaryOK, OutOK;
    hide Apply, Enabled;
    ConfigKept(s, a);
    StepInv(s, a);
    StepLinked(s, a);
    StepOrdered(s, a);
    StepStops(s, a);
    StepSkips(s, a);
    StepCauses(s, a);
    StepCancelsOK(s, a);
    StepReason(s, a);
    StepCount(s, a);
    StepErrors(s, a);
    StepClock(s, a);
    StepOrdinary(s, a);
    StepOut(s, a);
  }

  lemma {:induction false} PathRun(s: State, acts: seq<Action>, s': State)
    requires RunOK(s) && Path(s, acts, s')
    ensures RunOK(s')
    decreases |acts|
  {
    hide RunOK, Apply, Enabled;
    if acts != [] {
      assert ValidConfig(s.cfg);
      StepRun(s, acts[0]);
      PathRun(Apply(s, acts[0]), acts[1..], s');
    }
  }

  lemma ReachableRun(s: State)
    requires Reachable(s)
    ensures RunOK(s)
  {
    hide RunOK, Apply, Enabled;
    var acts :| ValidConfig(s.cfg) && Path(Init(s.cfg), acts, s);
    InitRun(s.cfg);
    PathRun(Init(s.cfg), acts, s);
  }

  // ---------- parts of it ----------

  lemma RunParts(s: State)
    requires RunOK(s)
    ensures ValidConfig(s.cfg) && Inv(s) && Linked(s) && ErrorsOK(s) && ClockOK(s)
  {
    hide Inv, Linked, ErrorsOK, ClockOK;
  }

  lemma ReachableHistory(s: State)
    requires Reachable(s)
    ensures Inv(s) && Linked(s) && NoRepeat(s.hist) && Ordered(s) && StopsOK(s) && SkipsOK(s)
  {
    hide Reachable, Inv, Linked, NoRepeat, Ordered, StopsOK, SkipsOK;
    hide CausesOK, CancelsOK, ReasonOK, CountOK, ErrorsOK, ClockOK, OrdinaryOK, OutOK;
    ReachableRun(s);
  }

  lemma ReachableCauses(s: State)
    requires Reachable(s)
    ensures Inv(s) && CausesOK(s) && CancelsOK(s) && ReasonOK(s) && CountOK(s) && OrdinaryOK(s) && OutOK(s)
  {
    hide Reachable, Inv, Linked, NoRepeat, Ordered, StopsOK, SkipsOK;
    hide CausesOK, CancelsOK, ReasonOK, CountOK, ErrorsOK, ClockOK, OrdinaryOK, OutOK;
    ReachableRun(s);
  }

  lemma ReachableShutdown(s: State)
    requires Reachable(s)
    ensures Inv(s) && ErrorsOK(s) && ClockOK(s)
  {
    hide Reachable, Inv, Linked, NoRepeat, Ordered, StopsOK, SkipsOK;
    hide CausesOK, CancelsOK, ReasonOK, CountOK, ErrorsOK, ClockOK, OrdinaryOK, OutOK;
    ReachableRun(s);
  }
}
