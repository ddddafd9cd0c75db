/** Tasks built from callbacks, and chains of them: each level forwards the steps it does not have to its parent. */
module Builds {
  import opened Errors
  import opened Steps

  type Callback = nat

  /** What is computed when a task is built, and kept: its steps, and its initialization error. */
  datatype Computed = Computed(steps: seq<Step>, initError: Option<Err>)

  /** A task at one moment: not built here, or built from callbacks, some of which may be nil, over a parent. */
  datatype Node =
    | Base(steps: Option<seq<Step>>, error: Option<Err>, name: string, options: seq<nat>, skipped: seq<Callback>)
    | Built(funcs: map<Step, Option<Callback>>, parent: Option<Node>, computed: Computed,
            name: string, options: seq<nat>, skipped: seq<Callback>)

  /** The steps a task tells of; without a list it has all of them. */
  function StepsOf(node: Node): seq<Step> {
    match node
    case Base(steps, _, _, _, _) => Listed(steps)
    case Built(_, _, computed, _, _, _) => computed.steps
  }

  function InitErrorOf(node: Node): Option<Err> {
    if node.Base? then node.error else node.computed.initError
  }

  /** Where a call of a task with a step ends up. */
  datatype Reached = Called(callback: Callback) | Forwarded(base: Node, step: Step) | NilCallback | Rejected(err: Err)

  function ParentWith(node: Node, step: Step): Option<Node>
    requires node.Built?
  {
    if node.parent.Some? && step in StepsOf(node.parent.value) then node.parent else None
  }

  function Run(node: Node, step: Step): Reached {
    match node
    case Base(_, _, _, _, _) => Forwarded(node, step)
    case Built(funcs, _, _, _, _, _) =>
      var parent := ParentWith(node, step);
      if step in funcs then
        if parent.Some? then Rejected(Wrapped([ErrDuplicateStep]))
        else if funcs[step].Some? then Called(funcs[step].value) else NilCallback
      else if parent.Some? then Run(parent.value, step)
      else Rejected(Wrapped([ErrInvalidTaskStep]))
  }

  // ---------- building ----------

  predicate MissingStep(funcs: map<Step, Option<Callback>>, parent: Option<Node>) {
    if funcs.Keys == {} then parent == None else exists step :: step in funcs && funcs[step] == None
  }

  /** The parent's steps that are not there yet, and those that are. */
  function NewSteps(own: seq<Step>, more: seq<Step>): seq<Step> {
    if more == [] then own
    else
      var n := |more| - 1;
      var before := NewSteps(own, more[..n]);
      if more[n] in before then before else before + [more[n]]
  }

  function Duplicated(own: seq<Step>, more: seq<Step>): seq<Step> {
    if more == [] then []
    else
      var n := |more| - 1;
      var before := Duplicated(own, more[..n]);
      if more[n] in NewSteps(own, more[..n]) then before + [more[n]] else before
  }

  function JoinedErrors(errs: seq<Err>): Option<Err> {
    if errs == [] then None else if |errs| == 1 then Some(errs[0]) else Some(Wrapped(errs))
  }

  function BuildErrs(funcs: map<Step, Option<Callback>>, parent: Option<Node>, own: seq<Step>): seq<Err> {
    (if MissingStep(funcs, parent) then [ErrNilTask] else [])
    + (if parent.Some? && Duplicated(own, StepsOf(parent.value)) != [] then [Wrapped([ErrDuplicateStep])] else [])
    + (if parent.Some? && InitErrorOf(parent.value).Some? then [InitErrorOf(parent.value).value] else [])
  }

  /** The keys of the callbacks in some order, which is not specified. */
  predicate Lists(own: seq<Step>, funcs: map<Step, Option<Callback>>) {
    NoRepeat(own) && forall step :: step in own <==> step in funcs
  }

  /** What is kept is what would be computed now. */
  ghost predicate UpToDate(node: Node)
    requires node.Built?
  {
    exists own :: Lists(own, node.funcs) && node.computed == Compute(node.funcs, node.parent, own)
  }

  function Compute(funcs: map<Step, Option<Callback>>, parent: Option<Node>, own: seq<Step>): Computed {
    Computed(if parent.Some? then NewSteps(own, StepsOf(parent.value)) else own,
             JoinedErrors(BuildErrs(funcs, parent, own)))
  }

  /** No parent of the chain changed since its child was built. */
  ghost predicate Unchanged(node: Node) {
    node.Built? ==> UpToDate(node) && (node.parent.Some? ==> Unchanged(node.parent.value))
  }

  // ---------- chains ----------

  /** The tasks of a chain, from the top one down. */
  function Chain(node: Node): (chain: seq<Node>)
    ensures |chain| > 0 && chain[0] == node
  {
    [node] + if node.Built? && node.parent.Some? then Chain(node.parent.value) else []
  }

  /** The steps that a level of a chain has itself. */
  function OwnSteps(node: Node): set<Step> {
    if node.Built? then node.funcs.Keys else set step | step in StepsOf(node)
  }

  /** A level has no nil callback; at the bottom it has a step, or is an error-free task that lists no step twice. */
  predicate GoodLevel(node: Node) {
    match node
    case Base(_, error, _, _, _) => error == None && NoRepeat(StepsOf(node))
    case Built(funcs, parent, _, _, _, _) =>
      && (forall step :: step in funcs ==> funcs[step].Some?)
      && (parent == None ==> funcs.Keys != {})
  }

  /** All levels are good, and no step is in two of them. */
  predicate GoodChain(chain: seq<Node>) {
    && (forall i :: 0 <= i < |chain| ==> GoodLevel(chain[i]))
    && (forall i, j :: 0 <= i < j < |chain| ==> OwnSteps(chain[i]) !! OwnSteps(chain[j]))
  }

  /** Some level of the chain has the step. */
  predicate Owned(chain: seq<Node>, step: Step) {
    exists i :: 0 <= i < |chain| && step in OwnSteps(chain[i])
  }

  lemma OwnedCons(node: Node, tail: seq<Node>, step: Step)
    ensures Owned([node] + tail, step) <==> step in OwnSteps(node) || Owned(tail, step)
  {
    hide OwnSteps;
    var chain := [node] + tail;
    if Owned(tail, step) {
      var j :| 0 <= j < |tail| && step in OwnSteps(tail[j]);
      assert chain[j + 1] == tail[j];
    }
    if step in OwnSteps(node) { assert chain[0] == node; }
  }

  lemma {:induction false} NewStepsAre(own: seq<Step>, more: seq<Step>)
    requires NoRepeat(own)
    ensures NoRepeat(NewSteps(own, more))
    ensures forall step :: step in NewSteps(own, more) <==> step in own || step in more
    decreases |more|
  {
    if more != [] { NewStepsAre(own, more[..|more| - 1]); }
  }

  /** No step is found twice exactly when the two lists share none and the second does not repeat one. */
  lemma {:induction false} NothingDuplicated(own: seq<Step>, more: seq<Step>)
    requires NoRepeat(own)
    ensures Duplicated(own, more) == [] <==> NoRepeat(more) && forall step :: step in own ==> step !in more
    decreases |more|
  {
    if more != [] {
      var n := |more| - 1;
      NothingDuplicated(own, more[..n]);
      NewStepsAre(own, more[..n]);
      assert forall i :: 0 <= i < n ==> more[..n][i] == more[i];
      if Duplicated(own, more) == [] {
        assert more[n] !in more[..n] && more[n] !in own;
      }
      if NoRepeat(more) && forall step :: step in own ==> step !in more {
        assert more[n] !in more[..n];
        assert more[n] in more;
      }
    }
  }

  lemma NoErrors(funcs: map<Step, Option<Callback>>, parent: Option<Node>, own: seq<Step>)
    ensures JoinedErrors(BuildErrs(funcs, parent, own)) == None <==>
              && !MissingStep(funcs, parent)
              && (parent.Some? ==> Duplicated(own, StepsOf(parent.value)) == [] && InitErrorOf(parent.value) == None)
  {
  }

  /** The steps of a chain are the steps of its levels, without repetition. */
  lemma {:induction false} ChainSteps(node: Node, step: Step)
    requires Unchanged(node)
    ensures node.Built? ==> NoRepeat(StepsOf(node))
    ensures step in StepsOf(node) <==> Owned(Chain(node), step)
    decreases node
  {
    if node.Built? {
      var own :| Lists(own, node.funcs) && node.computed == Compute(node.funcs, node.parent, own);
      if node.parent.Some? {
        var parent := node.parent.value;
        ChainSteps(parent, step);
        NewStepsAre(own, StepsOf(parent));
        OwnedCons(node, Chain(parent), step);
      } else {
        OwnedCons(node, [], step);
      }
    } else {
      OwnedCons(node, [], step);
      assert Chain(node) == [node] + [];
    }
  }

  lemma TailGood(node: Node, parent: Node)
    requires node.Built? && node.parent == Some(parent)
    ensures GoodChain(Chain(node)) <==>
              && GoodLevel(node) && GoodChain(Chain(parent))
              && forall j :: 0 <= j < |Chain(parent)| ==> OwnSteps(node) !! OwnSteps(Chain(parent)[j])
  {
    var chain, tail := Chain(node), Chain(parent);
    assert chain == [node] + tail;
    assert forall j :: 0 <= j < |tail| ==> tail[j] == chain[j + 1];
    assert forall i :: 0 < i < |chain| ==> chain[i] == tail[i - 1];
    if GoodChain(chain) {
      assert GoodLevel(chain[0]);
      forall i, j | 0 <= i < j < |tail|
        ensures OwnSteps(tail[i]) !! OwnSteps(tail[j])
      {
        assert OwnSteps(chain[i + 1]) !! OwnSteps(chain[j + 1]);
      }
      forall j | 0 <= j < |tail|
        ensures OwnSteps(node) !! OwnSteps(tail[j]) && GoodLevel(tail[j])
      {
        assert OwnSteps(chain[0]) !! OwnSteps(chain[j + 1]);
        assert GoodLevel(chain[j + 1]);
      }
    }
  }

  lemma DisjointTail(node: Node, parent: Node)
    requires node.Built? && Unchanged(parent)
    ensures (forall step :: step in node.funcs ==> step !in StepsOf(parent)) <==>
              forall j :: 0 <= j < |Chain(parent)| ==> OwnSteps(node) !! OwnSteps(Chain(parent)[j])
  {
    if forall step :: step in node.funcs ==> step !in StepsOf(parent) {
      forall j, step | 0 <= j < |Chain(parent)| && step in OwnSteps(node)
        ensures step !in OwnSteps(Chain(parent)[j])
      {
        ChainSteps(parent, step);
        assert !Owned(Chain(parent), step);
      }
    } else {
      var step :| step in node.funcs && step in StepsOf(parent);
      ChainSteps(parent, step);
      var j :| 0 <= j < |Chain(parent)| && step in OwnSteps(Chain(parent)[j]);
      assert step in OwnSteps(node);
    }
  }

  /**
   * A chain whose parents did not change has no initialization error exactly when all its levels are good and no
   * step is in two of them.
   */
  lemma {:induction false} NoErrorIffGood(node: Node)
    requires Unchanged(node) && node.Built?
    ensures InitErrorOf(node) == None <==> GoodChain(Chain(node))
    decreases node
  {
    var own :| Lists(own, node.funcs) && node.computed == Compute(node.funcs, node.parent, own);
    NoErrors(node.funcs, node.parent, own);
    if node.parent.Some? {
      var parent := node.parent.value;
      TailGood(node, parent);
      DisjointTail(node, parent);
      NothingDuplicated(own, StepsOf(parent));
      if parent.Built? {
        ChainSteps(parent, Setup);
        NoErrorIffGood(parent);
      } else {
        assert Chain(parent) == [parent];
      }
    } else {
      assert Chain(node) == [node];
    }
  }

  /** What calling a level with one of its own steps reaches. */
  function OwnCall(node: Node, step: Step): Reached
    requires step in OwnSteps(node)
  {
    if node.Base? then Forwarded(node, step)
    else if node.funcs[step].Some? then Called(node.funcs[step].value)
    else NilCallback
  }

  /**
   * Dispatch: in a chain without an initialization error, the top task tells of each step of each level, no other
   * level has it, and a call with it reaches that level, and never a nil callback.
   */
  lemma {:induction false} Dispatch(node: Node, step: Step, i: nat)
    requires Unchanged(node) && node.Built? && InitErrorOf(node) == None
    requires i < |Chain(node)| && step in OwnSteps(Chain(node)[i])
    ensures step in StepsOf(node)
    ensures Run(node, step) == OwnCall(Chain(node)[i], step) && !Run(node, step).NilCallback?
    ensures forall j :: 0 <= j < |Chain(node)| && step in OwnSteps(Chain(node)[j]) ==> j == i
    decreases node
  {
    var chain := Chain(node);
    NoErrorIffGood(node);
    ChainSteps(node, step);
    assert Owned(chain, step);
    assert GoodLevel(chain[i]);
    if i == 0 {
      DispatchTop(node, step);
    } else {
      var parent := node.parent.value;
      DispatchBelow(node, step, i);
      ParentHasNoError(node);
      if parent.Built? { Dispatch(parent, step, i - 1); }
    }
  }

  /** The top level has the step itself. */
  lemma DispatchTop(node: Node, step: Step)
    requires Unchanged(node) && node.Built? && GoodChain(Chain(node)) && step in node.funcs
    ensures Run(node, step) == OwnCall(node, step)
  {
    if node.parent.Some? {
      ChainSteps(node.parent.value, step);
      NotBelow(Chain(node), Chain(node.parent.value), node, step);
    }
  }

  /** A level below has it. */
  lemma DispatchBelow(node: Node, step: Step, i: nat)
    requires Unchanged(node) && node.Built? && GoodChain(Chain(node))
    requires 0 < i < |Chain(node)| && step in OwnSteps(Chain(node)[i])
    ensures node.parent.Some?
    ensures var parent := node.parent.value;
      && i - 1 < |Chain(parent)| && Chain(parent)[i - 1] == Chain(node)[i]
      && Run(node, step) == Run(parent, step)
      && (parent.Base? ==> Chain(node)[i] == parent)
  {
    var parent := node.parent.value;
    assert Chain(node) == [node] + Chain(parent);
    assert Owned(Chain(parent), step) by { assert step in OwnSteps(Chain(parent)[i - 1]); }
    ChainSteps(parent, step);
    NotAbove(Chain(node), node, step, i);
  }

  lemma NotBelow(chain: seq<Node>, tail: seq<Node>, node: Node, step: Step)
    requires chain == [node] + tail && step in OwnSteps(node) && GoodChain(chain)
    ensures !Owned(tail, step)
  {
    forall k | 0 <= k < |tail|
      ensures step !in OwnSteps(tail[k])
    {
      assert chain[k + 1] == tail[k] && chain[0] == node;
      assert OwnSteps(chain[0]) !! OwnSteps(chain[k + 1]);
    }
  }

  lemma NotAbove(chain: seq<Node>, node: Node, step: Step, i: nat)
    requires 0 < i < |chain| && chain[0] == node && GoodChain(chain) && step in OwnSteps(chain[i])
    ensures step !in OwnSteps(node)
  {
  }

  lemma ParentHasNoError(node: Node)
    requires Unchanged(node) && node.Built? && InitErrorOf(node) == None && node.parent.Some?
    ensures InitErrorOf(node.parent.value) == None
  {
    var own :| Lists(own, node.funcs) && node.computed == Compute(node.funcs, node.parent, own);
    NoErrors(node.funcs, node.parent, own);
  }

  /** A step that the top task does not tell of is rejected before it reaches any callback. */
  lemma RejectsOthers(node: Node, step: Step)
    requires Unchanged(node) && node.Built? && step !in StepsOf(node)
    ensures Run(node, step) == Rejected(Wrapped([ErrInvalidTaskStep]))
  {
    var own :| Lists(own, node.funcs) && node.computed == Compute(node.funcs, node.parent, own);
    if node.parent.Some? { NewStepsAre(own, StepsOf(node.parent.value)); }
  }

  // ---------- which error it is ----------

  /** A level has a nil callback, or neither a callback nor a parent. */
  predicate Unfilled(node: Node)
    requires node.Built?
  {
    || (exists step :: step in node.funcs && node.funcs[step] == None)
    || (node.funcs.Keys == {} && node.parent == None)
  }

  /** A step of a level is also one of its parent, or the parent tells of a step twice. */
  predicate Clashes(node: Node)
    requires node.Built?
  {
    && node.parent.Some?
    && ((exists step :: step in node.funcs && step in StepsOf(node.parent.value))
        || !NoRepeat(StepsOf(node.parent.value)))
  }

  lemma JoinedIs(errs: seq<Err>, target: Err)
    requires Sentinel(target)
    ensures JoinedErrors(errs).Some? && Is(JoinedErrors(errs).value, target) <==> exists e :: e in errs && Is(e, target)
  {
    if |errs| == 1 { assert errs[0] in errs; }
    if |errs| > 1 { assert forall i :: 0 <= i < |errs| ==> errs[i] in errs; }
  }

  /**
   * Which errors are found in the initialization error of a task: one for a missing callback, one for a step that is
   * there twice, and what is found in that of its parent.
   */
  lemma InitErrorIs(node: Node, target: Err)
    requires node.Built? && UpToDate(node) && Sentinel(target)
    ensures InitErrorOf(node).Some? && Is(InitErrorOf(node).value, target) <==>
              || (target == ErrNilTask && Unfilled(node))
              || (target == ErrDuplicateStep && Clashes(node))
              || (node.parent.Some? && InitErrorOf(node.parent.value).Some? &&
                  Is(InitErrorOf(node.parent.value).value, target))
  {
    var own :| Lists(own, node.funcs) && node.computed == Compute(node.funcs, node.parent, own);
    if node.parent.Some? { NothingDuplicated(own, StepsOf(node.parent.value)); }
    ErrsAre(node, own);
    FoundIn(node, BuildErrs(node.funcs, node.parent, own), target);
  }

  lemma FoundIn(node: Node, errs: seq<Err>, target: Err)
    requires node.Built? && Sentinel(target) && InitErrorOf(node) == JoinedErrors(errs)
    requires forall e :: e in errs <==>
               || (e == ErrNilTask && Unfilled(node))
               || (e == Wrapped([ErrDuplicateStep]) && Clashes(node))
               || (node.parent.Some? && Some(e) == InitErrorOf(node.parent.value))
    ensures InitErrorOf(node).Some? && Is(InitErrorOf(node).value, target) <==>
              || (target == ErrNilTask && Unfilled(node))
              || (target == ErrDuplicateStep && Clashes(node))
              || (node.parent.Some? && InitErrorOf(node.parent.value).Some? &&
                  Is(InitErrorOf(node.parent.value).value, target))
  {
    hide UpToDate, BuildErrs, Unfilled, Clashes, Duplicated, NewSteps, JoinedErrors, Is;
    JoinedIs(errs, target);
    OwnErrorsIs(target);
  }

  lemma OwnErrorsIs(target: Err)
    requires Sentinel(target)
    ensures Is(ErrNilTask, target) <==> target == ErrNilTask
    ensures Is(Wrapped([ErrDuplicateStep]), target) <==> target == ErrDuplicateStep
  {
    SingleIs(ErrDuplicateStep);
  }

  lemma ErrsAre(node: Node, own: seq<Step>)
    requires node.Built? && Lists(own, node.funcs)
    requires node.parent.Some? ==> (Duplicated(own, StepsOf(node.parent.value)) == [] <==> !Clashes(node))
    ensures forall e :: e in BuildErrs(node.funcs, node.parent, own) <==>
              || (e == ErrNilTask && Unfilled(node))
              || (e == Wrapped([ErrDuplicateStep]) && Clashes(node))
              || (node.parent.Some? && Some(e) == InitErrorOf(node.parent.value))
  {
  }

  /** A step that a task shares with its parent is not run: it is rejected, and the task has an initialization error. */
  lemma RejectsShared(node: Node, step: Step)
    requires node.Built? && UpToDate(node) && step in node.funcs
    requires node.parent.Some? && step in StepsOf(node.parent.value)
    ensures Run(node, step).Rejected? && Is(Run(node, step).err, ErrDuplicateStep)
    ensures InitErrorOf(node).Some? && Is(InitErrorOf(node).value, ErrDuplicateStep)
  {
    InitErrorIs(node, ErrDuplicateStep);
    SingleIs(ErrDuplicateStep);
  }

  // ---------- task information ----------

  datatype Info =
    Info(name: string, steps: seq<Step>, options: seq<nat>, initError: Option<Err>, skipped: seq<Callback>)

  /** What a task tells of itself: a name of its own first, options after those of its parent, callbacks before. */
  function InfoOf(node: Node): Info {
    match node
    case Base(_, _, name, options, skipped) => Info(name, StepsOf(node), options, InitErrorOf(node), skipped)
    case Built(_, parent, computed, name, options, skipped) =>
      var below := if parent.Some? then InfoOf(parent.value) else Info("", [], [], None, []);
      Info(if name != "" then name else below.name, computed.steps, below.options + options, computed.initError,
           skipped + below.skipped)
  }

  function AllOptions(chain: seq<Node>): seq<nat> {
    if chain == [] then [] else AllOptions(chain[1..]) + chain[0].options
  }

  function AllSkipped(chain: seq<Node>): seq<Callback> {
    if chain == [] then [] else chain[0].skipped + AllSkipped(chain[1..])
  }

  function FirstName(chain: seq<Node>): string {
    if chain == [] then "" else if chain[0].name != "" then chain[0].name else FirstName(chain[1..])
  }

  /**
   * Along a chain, the options of the top task are applied last and its skipped callbacks are called first; the name
   * is the first one from the top.
   */
  lemma {:induction false} InfoOfChain(node: Node)
    ensures InfoOf(node).options == AllOptions(Chain(node))
    ensures InfoOf(node).skipped == AllSkipped(Chain(node))
    ensures InfoOf(node).name == FirstName(Chain(node))
    ensures InfoOf(node).steps == StepsOf(node) && InfoOf(node).initError == InitErrorOf(node)
    decreases node
  {
    var chain := Chain(node);
    if node.Built? && node.parent.Some? {
      InfoOfChain(node.parent.value);
      assert chain[1..] == Chain(node.parent.value);
    } else {
      assert chain[1..] == [];
    }
  }

  // ---------- the builder ----------

  datatype ParentRef = NoParent | BaseParent(node: Node) | BuildParent(build: BuildTask)

  datatype BuildOption =
    | WithName(name: string)
    | WithStep(step: Step, f: Option<Callback>)
    | WithParent(parent: ParentRef)
    | WithTaskOptions(options: seq<nat>)
    | WithSkipped(f: Option<Callback>)

  datatype Fields = Fields(stepFunc: map<Step, Option<Callback>>, parent: ParentRef, options: seq<nat>,
                           skipped: seq<Callback>, name: string)

  function ApplyOption(fields: Fields, opt: BuildOption): Fields {
    match opt
    case WithName(name) => fields.(name := name)
    case WithStep(step, f) => fields.(stepFunc := fields.stepFunc[step := f])
    case WithParent(parent) => fields.(parent := parent)
    case WithTaskOptions(options) => fields.(options := fields.options + options)
    case WithSkipped(f) => if f.Some? then fields.(skipped := fields.skipped + [f.value]) else fields
  }

  function GivenBy(opts: seq<BuildOption>): Fields {
    if opts == [] then Fields(map[], NoParent, [], [], "")
    else ApplyOption(GivenBy(opts[..|opts| - 1]), opts[|opts| - 1])
  }

  /** The last setting of a step, of the parent and of the name wins. */
  lemma {:induction false} LastOptionWins(opts: seq<BuildOption>, i: nat)
    requires i < |opts|
    ensures opts[i].WithStep? && (forall k :: i < k < |opts| && opts[k].WithStep? ==> opts[k].step != opts[i].step) ==>
              opts[i].step in GivenBy(opts).stepFunc && GivenBy(opts).stepFunc[opts[i].step] == opts[i].f
    ensures opts[i].WithParent? && (forall k :: i < k < |opts| ==> !opts[k].WithParent?) ==>
              GivenBy(opts).parent == opts[i].parent
    ensures opts[i].WithName? && (forall k :: i < k < |opts| ==> !opts[k].WithName?) ==>
              GivenBy(opts).name == opts[i].name
    decreases |opts|
  {
    if i < |opts| - 1 { LastOptionWins(opts[..|opts| - 1], i); }
  }

  /** A step is set only by its own option. */
  lemma {:induction false} OnlyGivenSteps(opts: seq<BuildOption>, step: Step)
    requires step in GivenBy(opts).stepFunc
    ensures exists i :: 0 <= i < |opts| && opts[i].WithStep? && opts[i].step == step
    decreases |opts|
  {
    var n := |opts| - 1;
    if opts[n].WithStep? && opts[n].step == step {
      assert opts[n].step == step;
    } else {
      OnlyGivenSteps(opts[..n], step);
      var i :| 0 <= i < n && opts[..n][i].WithStep? && opts[..n][i].step == step;
      assert opts[i].step == step;
    }
  }

  lemma GivenMore(opts: seq<BuildOption>, opt: BuildOption)
    ensures GivenBy(opts + [opt]) == ApplyOption(GivenBy(opts), opt)
  {
    assert (opts + [opt])[..|opts|] == opts;
  }

  /** What one option gives: options of the task, or a skipped callback unless it is nil. */
  lemma OneGiven(opt: BuildOption)
    ensures GivenBy([]) == Fields(map[], NoParent, [], [], "")
    ensures opt.WithTaskOptions? ==> GivenBy([opt]).options == opt.options && GivenBy([opt]).skipped == []
    ensures opt.WithSkipped? ==> GivenBy([opt]).skipped == if opt.f.Some? then [opt.f.value] else []
    ensures !opt.WithTaskOptions? ==> GivenBy([opt]).options == []
    ensures !opt.WithSkipped? ==> GivenBy([opt]).skipped == []
  {
    GivenMore([], opt);
    assert [] + [opt] == [opt];
  }

  /** Options of the task and skipped callbacks add up, each in the order it was given. */
  lemma {:induction false} OptionsAddUp(opts: seq<BuildOption>, more: seq<BuildOption>)
    ensures GivenBy(opts + more).options == GivenBy(opts).options + GivenBy(more).options
    ensures GivenBy(opts + more).skipped == GivenBy(opts).skipped + GivenBy(more).skipped
    decreases |more|
  {
    hide GivenBy;
    if more == [] {
      OneGiven(WithName(""));
      assert opts + more == opts;
    } else {
      var n := |more| - 1;
      assert opts + more == opts + more[..n] + [more[n]] && more == more[..n] + [more[n]];
      OptionsAddUp(opts, more[..n]);
      GivenMore(opts + more[..n], more[n]);
      GivenMore(more[..n], more[n]);
    }
  }

  class BuildTask {
    var stepFunc: map<Step, Option<Callback>>
    var parent: ParentRef
    var computed: Computed
    var options: seq<nat>
    var skipped: seq<Callback>
    var name: string
    ghost var repr: set<BuildTask>    // this task and those below it

    ghost predicate Valid()
      reads this, repr
      decreases repr
    {
      && this in repr
      && (parent.BaseParent? ==> parent.node.Base?)
      && (parent.BuildParent? ==>
            && parent.build in repr && this !in parent.build.repr && parent.build.repr < repr
            && parent.build.Valid())
    }

    /** The chain as it is now. */
    ghost function Live(): (node: Node)
      requires Valid()
      reads this, repr
      ensures node.Built?
      decreases repr, 1
    {
      Built(stepFunc, LiveParent(), computed, name, options, skipped)
    }

    ghost function LiveParent(): Option<Node>
      requires Valid()
      reads this, repr
      decreases repr, 0
    {
      match parent
      case NoParent => None
      case BaseParent(node) => Some(node)
      case BuildParent(build) => Some(build.Live())
    }

    /** Builds a task: the options are applied one after the other, then its steps and error are computed. */
    constructor (opts: seq<BuildOption>)
      requires forall i :: 0 <= i < |opts| && opts[i].WithParent? ==> ProperParent(opts[i].parent)
      ensures Valid() && UpToDate(Live())
      ensures repr == {this} + if parent.BuildParent? then parent.build.repr else {}
      ensures Fields(stepFunc, parent, options, skipped, name) == GivenBy(opts)
    {
      var given := ApplyOptions(opts);
      stepFunc, parent, options, skipped, name :=
        given.stepFunc, given.parent, given.options, given.skipped, given.name;
      computed := Computed([], None);
      repr := {this} + if given.parent.BuildParent? then given.parent.build.repr else {};
      new;
      var err := Init();
    }

    method HasMissingStep() returns (missing: bool)
      requires Valid()
      ensures missing == MissingStep(stepFunc, LiveParent())
    {
      if stepFunc.Keys == {} { return parent.NoParent?; }
      var left := stepFunc.Keys;
      while left != {}
        invariant left <= stepFunc.Keys
        invariant forall step :: step in stepFunc && step !in left ==> stepFunc[step].Some?
        decreases |left|
      {
        var step :| step in left;
        if stepFunc[step] == None { return true; }
        left := left - {step};
      }
      missing := false;
    }

    /** Computes the steps and the initialization error, and returns the error. */
    method Init() returns (err: Option<Err>)
      requires Valid()
      modifies this`computed
      ensures Valid() && UpToDate(Live()) && err == computed.initError
      ensures LiveParent() == old(LiveParent())
    {
      hide NewSteps, Duplicated, JoinedErrors;
      var own := Keys(stepFunc);
      var missing := HasMissingStep();
      ghost var was := LiveParent();
      var errs: seq<Err> := if missing then [ErrNilTask] else [];
      var steps := own;
      if !parent.NoParent? {
        var more := ParentSteps();
        var duplicated;
        steps, duplicated := Merge(own, more);
        if duplicated != [] { errs := errs + [Wrapped([ErrDuplicateStep])]; }
        if ParentError().Some? { errs := errs + [ParentError().value]; }
      }
      assert errs == BuildErrs(stepFunc, was, own);
      err := JoinedErrors(errs);
      computed := Computed(steps, err);
      assert LiveParent() == was;
      assert computed == Compute(stepFunc, was, own);
    }

    function ParentSteps(): seq<Step>
      requires Valid() && !parent.NoParent?
      reads this, repr
      ensures ParentSteps() == StepsOf(LiveParent().value)
    {
      if parent.BaseParent? then StepsOf(parent.node) else parent.build.computed.steps
    }

    function ParentError(): Option<Err>
      requires Valid() && !parent.NoParent?
      reads this, repr
      ensures ParentError() == InitErrorOf(LiveParent().value)
    {
      if parent.BaseParent? then InitErrorOf(parent.node) else parent.build.computed.initError
    }

    /** Sets another parent, and computes anew. */
    method SetParent(p: ParentRef) returns (err: Option<Err>)
      requires Valid() && ProperParent(p) && (p.BuildParent? ==> this !in p.build.repr)
      modifies this`parent, this`computed, this`repr
      ensures Valid() && UpToDate(Live()) && parent == p && err == computed.initError
      ensures repr == {this} + if p.BuildParent? then p.build.repr else {}
    {
      parent := p;
      repr := {this} + if p.BuildParent? then p.build.repr else {};
      err := Init();
    }

    /** Runs a step: its own callback, or the parent. */
    method RunStep(step: Step) returns (reached: Reached)
      requires Valid()
      ensures reached == Run(Live(), step)
      decreases repr
    {
      var forwards := !parent.NoParent? && step in ParentSteps();
      if step in stepFunc {
        if forwards { return Rejected(Wrapped([ErrDuplicateStep])); }
        return if stepFunc[step].Some? then Called(stepFunc[step].value) else NilCallback;
      }
      if forwards {
        match parent {
          case BaseParent(node) => return Forwarded(node, step);
          case BuildParent(build) =>
            reached := build.RunStep(step);
            return;
        }
      }
      reached := Rejected(Wrapped([ErrInvalidTaskStep]));
    }

    /** What the task tells of itself, read from its parent at each call. */
    method TaskInfo() returns (info: Info)
      requires Valid()
      ensures info == InfoOf(Live())
      decreases repr
    {
      var below := Info("", [], [], None, []);
      match parent {
        case NoParent =>
        case BaseParent(node) => below := InfoOf(node);
        case BuildParent(build) => below := build.TaskInfo();
      }
      info := Info(if name != "" then name else below.name, computed.steps, below.options + options,
                   computed.initError, skipped + below.skipped);
    }
  }

  ghost predicate ProperParent(p: ParentRef)
    reads if p.BuildParent? then {p.build} + p.build.repr else {}
  {
    && (p.BaseParent? ==> p.node.Base?)
    && (p.BuildParent? ==> p.build.Valid())
  }

  method ApplyOptions(opts: seq<BuildOption>) returns (given: Fields)
    requires forall i :: 0 <= i < |opts| && opts[i].WithParent? ==> ProperParent(opts[i].parent)
    ensures given == GivenBy(opts) && ProperParent(given.parent)
  {
    given := Fields(map[], NoParent, [], [], "");
    for i := 0 to |opts|
      invariant given == GivenBy(opts[..i]) && ProperParent(given.parent)
    {
      assert opts[..i + 1][..i] == opts[..i];
      given := ApplyOption(given, opts[i]);
    }
    assert opts[..|opts|] == opts;
  }

  method Merge(own: seq<Step>, more: seq<Step>) returns (steps: seq<Step>, duplicated: seq<Step>)
    ensures steps == NewSteps(own, more) && duplicated == Duplicated(own, more)
  {
    steps, duplicated := own, [];
    for i := 0 to |more|
      invariant steps == NewSteps(own, more[..i]) && duplicated == Duplicated(own, more[..i])
    {
      assert more[..i + 1][..i] == more[..i];
      if more[i] !in steps { steps := steps + [more[i]]; } else { duplicated := duplicated + [more[i]]; }
    }
    assert more[..|more|] == more;
  }

  method Keys(funcs: map<Step, Option<Callback>>) returns (own: seq<Step>)
    ensures Lists(own, funcs)
  {
    own := [];
    var left := funcs.Keys;
    while left != {}
      invariant left <= funcs.Keys && NoRepeat(own)
      invariant forall step :: step in own <==> step in funcs && step !in left
      decreases |left|
    {
      var step :| step in left;
      own, left := own + [step], left - {step};
    }
  }

  /** The chain of a stop step over a start step over a task with a setup step. */
  lemma ThreeGood(child: Node, middle: Node, base: Node)
    requires base == Base(Some([Setup]), None, "", [], [])
    requires middle.Built? && middle.funcs == map[Stop := Some(1)] && middle.parent == Some(base) && UpToDate(middle)
    requires child.Built? && child.funcs == map[Start := Some(0)] && child.parent == Some(middle) && UpToDate(child)
    ensures InitErrorOf(child) == None && Setup in StepsOf(child)
  {
    hide UpToDate;
    assert Unchanged(base) && Unchanged(middle) && Unchanged(child);
    ThreeLevels(child, middle, base);
    hide Chain, GoodChain, Owned, Unchanged;
    NoErrorIffGood(child);
    ChainSteps(child, Setup);
  }

  lemma ThreeLevels(child: Node, middle: Node, base: Node)
    requires base == Base(Some([Setup]), None, "", [], [])
    requires middle.Built? && middle.funcs == map[Stop := Some(1)] && middle.parent == Some(base)
    requires child.Built? && child.funcs == map[Start := Some(0)] && child.parent == Some(middle)
    ensures GoodChain(Chain(child)) && Owned(Chain(child), Setup)
  {
    var chain := [child, middle, base];
    assert Chain(child) == chain by { assert Chain(base) == [base] && Chain(middle) == [middle, base]; }
    assert OwnSteps(child) == {Start} && OwnSteps(middle) == {Stop};
    assert StepsOf(base) == [Setup] && OwnSteps(chain[2]) == {Setup};
    assert GoodLevel(child) && GoodLevel(middle) && GoodLevel(base);
    hide OwnSteps, GoodLevel, Chain, StepsOf;
    assert forall i, j :: 0 <= i < j < |chain| ==> OwnSteps(chain[i]) !! OwnSteps(chain[j]);
  }

  lemma TwoStale(child: Node, middle: Node)
    requires middle.Built? && middle.funcs == map[Stop := Some(1)] && middle.parent == None && UpToDate(middle)
    requires child.Built? && child.funcs == map[Start := Some(0)] && child.parent == Some(middle)
    requires Setup in StepsOf(child)
    ensures Run(child, Setup) == Rejected(Wrapped([ErrInvalidTaskStep])) && !Unchanged(child)
  {
    assert Chain(middle) == [middle] && Chain(child) == [child, middle];
    if Unchanged(child) {
      ChainSteps(child, Setup);
    }
  }

  method Over(step: Step, f: Callback, parent: ParentRef) returns (task: BuildTask)
    requires ProperParent(parent)
    ensures fresh(task) && task.Valid() && UpToDate(task.Live())
    ensures task.stepFunc == map[step := Some(f)] && task.parent == parent
    ensures task.repr == {task} + if parent.BuildParent? then parent.build.repr else {}
  {
    var opts := [WithStep(step, Some(f)), WithParent(parent)];
    assert opts[..1] == [opts[0]] && opts[..1][..0] == [];
    assert GivenBy(opts[..1]) == ApplyOption(GivenBy([]), opts[0]);
    task := new BuildTask(opts);
  }

  /** A start step over a stop step over a task with a setup step. */
  method ThreeTasks() returns (child: BuildTask, middle: BuildTask)
    ensures fresh(child) && fresh(middle) && child != middle && child.Valid() && middle.Valid()
    ensures child.parent == BuildParent(middle) && child.stepFunc == map[Start := Some(0)]
    ensures middle.stepFunc == map[Stop := Some(1)] && middle.repr == {middle} && child.repr == {child, middle}
    ensures child.computed.initError == None && Setup in child.computed.steps
  {
    var base := Base(Some([Setup]), None, "", [], []);
    middle := Over(Stop, 1, BaseParent(base));
    hide UpToDate;
    ghost var m := middle.Live();
    assert m.parent == middle.LiveParent() == Some(base);
    child := Over(Start, 0, BuildParent(middle));
    assert middle.Live() == m;
    assert child.Live().parent == child.LiveParent() == Some(middle.Live());
    ThreeGood(child.Live(), m, base);
  }

  /**
   * Why parents must not change: a task that was built keeps its steps, so after the parent of its parent is taken
   * away it still tells of a step that is rejected when it is called.
   */
  method StaleSteps() returns (child: BuildTask)
    ensures child.Valid() && InitErrorOf(child.Live()) == None && !Unchanged(child.Live())
    ensures Setup in StepsOf(child.Live()) && Run(child.Live(), Setup) == Rejected(Wrapped([ErrInvalidTaskStep]))
  {
    var middle;
    child, middle := ThreeTasks();
    hide Run, Unchanged, UpToDate;
    var err := middle.SetParent(NoParent);
    assert middle.Live().parent == middle.LiveParent() == None;
    assert child.Live().parent == child.LiveParent() == Some(middle.Live());
    TwoStale(child.Live(), middle.Live());
  }
}
