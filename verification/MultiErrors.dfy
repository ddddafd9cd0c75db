/** The builder that collects the errors of a stage and of a shutdown. */
module MultiErrors {
  import opened Errors

  /** An error as it is held: a list of errors is a reference to the slice of its parts. */
  datatype ErrorRef = NoError | Single(err: Err) | List(slice: array<Err>)

  function ErrorOf(e: ErrorRef): Option<Err>
    reads if e.List? then {e.slice} else {}
  {
    match e
    case NoError => None
    case Single(err) => Some(err)
    case List(slice) => Some(Multi(slice[..]))
  }

  class MultiErrorBuilder {
    var errs: array<Err>    // the slice and the room behind it
    var n: nat              // how long the slice is

    ghost predicate Valid()
      reads this, errs
    {
      n <= errs.Length
    }

    function Contents(): seq<Err>
      requires Valid()
      reads this, errs
    {
      errs[..n]
    }

    constructor ()
      ensures Valid() && Contents() == [] && fresh(errs)
    {
      errs := new Err[0];
      n := 0;
    }

    /** Appends to the slice, moving it to a bigger one when there is no room. */
    method Append(err: Err)
      requires Valid()
      modifies this, errs
      ensures Valid() && Contents() == old(Contents()) + [err]
      ensures errs == old(errs) || fresh(errs)
    {
      if n == errs.Length {
        var bigger := new Err[2 * n + 1](_ => err);
        for i := 0 to n
          invariant errs == old(errs) && n == old(n) && errs[..] == old(errs[..])
          invariant bigger[..i] == errs[..i] && bigger[n] == err
        {
          bigger[i] := errs[i];
        }
        errs := bigger;
      }
      errs[n] := err;
      n := n + 1;
    }

    method AppendAll(more: seq<Err>)
      requires Valid()
      modifies this, errs
      ensures Valid() && Contents() == old(Contents()) + more
      ensures errs == old(errs) || fresh(errs)
    {
      for i := 0 to |more|
        invariant Valid() && (errs == old(errs) || fresh(errs)) && Contents() == old(Contents()) + more[..i]
      {
        Append(more[i]);
      }
    }

    /** Adds an error; none is left out, and the parts of a list are added one by one. */
    method Add(e: ErrorRef)
      requires Valid() && (e.List? ==> e.slice != errs)
      modifies this, errs
      ensures Valid() && Contents() == old(Contents()) + Flat(old(ErrorOf(e)))
      ensures errs == old(errs) || fresh(errs)
    {
      match e
      case NoError =>
      case Single(Multi(errors)) => AppendAll(errors);
      case Single(err) => Append(err);
      case List(slice) => AppendAll(slice[..]);
    }

    /** The error built so far, in a slice of its own. */
    method Build() returns (e: ErrorRef)
      requires Valid()
      ensures ErrorOf(e) == BuildErrors(Contents())
      ensures e.List? ==> fresh(e.slice)
    {
      if n == 0 {
        e := NoError;
      } else if n == 1 {
        e := Single(errs[0]);
      } else {
        var clone := new Err[n](i requires 0 <= i < n && n <= errs.Length reads this, errs => errs[i]);
        assert clone[..] == Contents();
        e := List(clone);
      }
    }
  }

  /** An error that was built is not changed by what is added later. */
  method BuildThenAdd(b: MultiErrorBuilder, late: ErrorRef) returns (built: ErrorRef)
    requires b.Valid() && (late.List? ==> late.slice != b.errs)
    modifies b, b.errs
    ensures ErrorOf(built) == BuildErrors(old(b.Contents()))
    ensures b.Valid() && b.Contents() == old(b.Contents()) + Flat(old(ErrorOf(late)))
  {
    built := b.Build();
    b.Add(late);
  }

  /** The contents of a builder after adding errors one after the other. */
  function Collected(added: seq<Option<Err>>): seq<Err> {
    if added == [] then [] else Collected(added[..|added| - 1]) + Flat(added[|added| - 1])
  }

  /** Adding what one builder built to another one is the same as adding its errors there, unless that is one list. */
  lemma BuiltIsFlattened(es: seq<Err>)
    ensures Flat(BuildErrors(es)) == es <==> !(|es| == 1 && es[0].Multi?)
  {
  }

  /** A built error is missing exactly when nothing but missing errors and empty lists was added. */
  lemma {:induction false} NothingCollected(added: seq<Option<Err>>)
    ensures BuildErrors(Collected(added)) == None <==>
              forall i :: 0 <= i < |added| ==> added[i] == None || added[i] == Some(Multi([]))
    decreases |added|
  {
    hide Flat;
    if added != [] {
      var n := |added| - 1;
      NothingCollected(added[..n]);
      NothingFlat(added[n]);
      assert forall i :: 0 <= i < n ==> added[..n][i] == added[i];
    }
  }

  lemma NothingFlat(e: Option<Err>)
    ensures Flat(e) == [] <==> e == None || e == Some(Multi([]))
  {
  }
}
