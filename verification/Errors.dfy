/** Error values of the library: which errors wrap which, and how lists of errors are merged. */
module Errors {

  datatype Option<+T> = None | Some(value: T)

  /** An error is a sentinel, an error of the user, or a wrapper around other errors. */
  datatype Err =
    | User(id: int)
    | ErrExit
    | ErrInvalidStage
    | ErrInvalidTaskStep
    | ErrInvalidStepOrder
    | ErrAlreadyRunning
    | ErrInitialization
    | ErrNoStartTask
    | ErrNilTask
    | ErrNoStage
    | ErrShutdownTimeout
    | ErrAlreadyInitialized
    | ErrNotInitialized
    | ErrDuplicateStep
    | ErrTaskSkipped
    | DeadlineExceeded
    | Canceled
    | Wrapped(parts: seq<Err>)   // fmt.Errorf with %w verbs, and errors.Join
    | Multi(errors: seq<Err>)    // the library's own list of errors
    | Fatal(err: Err)            // the library's mark for errors that must reach the exit cause

  /** errors.Is: the target occurs somewhere in the tree of wrapped errors. */
  predicate Is(e: Err, target: Err) {
    || e == target
    || match e
       case Wrapped(parts) => exists i :: 0 <= i < |parts| && Is(parts[i], target)
       case Multi(errors) => exists i :: 0 <= i < |errors| && Is(errors[i], target)
       case Fatal(err) => Is(err, target)
       case _ => false
  }

  /** Both errors are found in an error that wraps two, and nothing is found that is in neither. */
  lemma PairIs(a: Err, b: Err)
    ensures Is(Wrapped([a, b]), a) && Is(Wrapped([a, b]), b)
    ensures forall target: Err :: !target.Wrapped? ==> (Is(Wrapped([a, b]), target) <==> Is(a, target) || Is(b, target))
  {
    var parts := Wrapped([a, b]).parts;
    assert parts[0] == a && parts[1] == b;
  }

  lemma SingleIs(a: Err)
    ensures Is(Wrapped([a]), a)
    ensures forall target: Err :: !target.Wrapped? ==> (Is(Wrapped([a]), target) <==> Is(a, target))
  {
    assert Wrapped([a]).parts[0] == a;
  }

  /** Only itself is found in a sentinel. */
  lemma SentinelIs(a: Err, target: Err)
    requires Sentinel(a)
    ensures Is(a, target) <==> a == target
  {
  }

  /** No part of the error is marked fatal. The mark is private to the library, so this holds of user errors. */
  predicate Ordinary(e: Err) {
    match e
    case Wrapped(parts) => forall i :: 0 <= i < |parts| ==> Ordinary(parts[i])
    case Multi(errors) => forall i :: 0 <= i < |errors| ==> Ordinary(errors[i])
    case Fatal(_) => false
    case _ => true
  }

  predicate OrdinaryOpt(e: Option<Err>) {
    e.Some? ==> Ordinary(e.value)
  }

  /** errors.As for the fatal mark: the first fatal error met in a depth-first walk. */
  function FindFatal(e: Err): Option<Err> {
    match e
    case Wrapped(parts) => FindFatalIn(parts)
    case Multi(errors) => FindFatalIn(errors)
    case Fatal(err) => Some(err)
    case _ => None
  }

  function FindFatalIn(es: seq<Err>): Option<Err> {
    if es == [] then None
    else match FindFatal(es[0])
      case Some(f) => Some(f)
      case None => FindFatalIn(es[1..])
  }

  /** The walk misses no mark: it finds none exactly in errors that have none. */
  lemma {:induction false} OrdinaryHasNoFatal(e: Err)
    ensures FindFatal(e) == None <==> Ordinary(e)
    decreases e
  {
    match e
    case Wrapped(parts) => OrdinaryListHasNoFatal(parts);
    case Multi(errors) => OrdinaryListHasNoFatal(errors);
    case _ =>
  }

  lemma {:induction false} OrdinaryListHasNoFatal(es: seq<Err>)
    ensures FindFatalIn(es) == None <==> forall i :: 0 <= i < |es| ==> Ordinary(es[i])
    decreases es
  {
    if es != [] {
      OrdinaryHasNoFatal(es[0]);
      OrdinaryListHasNoFatal(es[1..]);
      assert forall i :: 0 < i < |es| ==> es[i] == es[1..][i - 1];
    }
  }

  /** What one `add` contributes to a builder: a list of errors is flattened one level. */
  function Flat(e: Option<Err>): seq<Err> {
    match e
    case None => []
    case Some(Multi(errors)) => errors
    case Some(err) => [err]
  }

  /** The error built from a list: none, the only one, or a list. */
  function BuildErrors(es: seq<Err>): Option<Err> {
    if |es| == 0 then None
    else if |es| == 1 then Some(es[0])
    else Some(Multi(es))
  }

  /** An error that wraps nothing, as those that callers look for with errors.Is. */
  predicate Sentinel(e: Err) { !e.Wrapped? && !e.Multi? && !e.Fatal? }

  /** A sentinel is found in a built error exactly when it is found in one of the errors it was built from. */
  lemma BuiltIs(es: seq<Err>, target: Err)
    requires es != [] && Sentinel(target)
    ensures Is(BuildErrors(es).value, target) <==> exists e :: e in es && Is(e, target)
  {
    if |es| == 1 {
      assert forall e :: e in es <==> e == es[0];
    } else {
      assert forall i :: 0 <= i < |es| ==> es[i] in es;
    }
  }

  function InitializationError(e: Err): Err { Wrapped([ErrInitialization, e]) }

  /**
   * The error the run ends with: `ErrExit` means a normal exit, and a fatal error found among
   * the stop errors is joined to the cause.
   */
  function ExitCause(cause: Err, stopErr: Option<Err>): Option<Err> {
    var first := if Is(cause, ErrExit) then None else Some(cause);
    var fatal := if stopErr.Some? then FindFatal(stopErr.value) else None;
    var joined :=
      if fatal.None? then first
      else if first.None? then fatal
      else Some(Wrapped([first.value, fatal.value]));
    if joined.Some? && joined.value.Fatal? then Some(joined.value.err) else joined
  }

  /** What the walk finds is marked in the error, and whatever is found in it is found in the error. */
  lemma {:induction false} FoundFatal(e: Err, f: Err)
    requires FindFatal(e) == Some(f)
    ensures !Ordinary(e) && Is(e, Fatal(f)) && forall target :: Is(f, target) ==> Is(e, target)
    decreases e
  {
    match e
    case Wrapped(parts) => var i := FoundFatalIn(parts, f);
    case Multi(errors) => var i := FoundFatalIn(errors, f);
    case Fatal(_) =>
  }

  lemma {:induction false} FoundFatalIn(es: seq<Err>, f: Err) returns (i: nat)
    requires FindFatalIn(es) == Some(f)
    ensures i < |es| && FindFatal(es[i]) == Some(f) && forall k :: 0 <= k < i ==> Ordinary(es[k])
    ensures !Ordinary(es[i]) && Is(es[i], Fatal(f))
    ensures forall target :: Is(f, target) ==> Is(es[i], target)
    decreases es
  {
    if FindFatal(es[0]).Some? {
      FoundFatal(es[0], f);
      i := 0;
    } else {
      OrdinaryHasNoFatal(es[0]);
      i := FoundFatalIn(es[1..], f);
      i := i + 1;
    }
  }

  /** A fatal error among the stop errors always reaches the caller: alone after a normal exit, else with the cause. */
  lemma FatalReachesCause(cause: Err, stopErr: Err, f: Err)
    requires FindFatal(stopErr) == Some(f)
    ensures var exit := ExitCause(cause, Some(stopErr));
      && exit.Some?
      && (!Is(cause, ErrExit) ==> Is(exit.value, cause) && Is(exit.value, f))
      && (Is(cause, ErrExit) ==> exit.value == if f.Fatal? then f.err else f)
  {
    if !Is(cause, ErrExit) {
      PairIs(cause, f);
    }
  }

  predicate AllOrdinary(es: seq<Err>) { forall i :: 0 <= i < |es| ==> Ordinary(es[i]) }

  lemma OrdinaryExit(cause: Err, stops: seq<Err>)
    requires Ordinary(cause) && AllOrdinary(stops)
    ensures ExitCause(cause, BuildErrors(stops)) == if Is(cause, ErrExit) then None else Some(cause)
  {
    var stopErr := BuildErrors(stops);
    if stopErr.Some? {
      assert Ordinary(stopErr.value) by {
        if |stops| == 1 { assert Ordinary(stops[0]); }
      }
      OrdinaryHasNoFatal(stopErr.value);
    }
  }
}
