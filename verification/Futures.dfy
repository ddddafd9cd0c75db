/** Futures and the latch below them: a channel made only when someone asks for it, and closed once. */
module Futures {
  import opened Errors

  class Channel {
    var closed: bool

    constructor ()
      ensures !closed
    {
      closed := false;
    }

    /** Closing a closed channel panics, so it must be open. */
    method Close()
      requires !closed
      modifies this
      ensures closed
    {
      closed := true;
    }
  }

  /** A latch begins without a channel; `closedChan` is one closed channel shared by all latches. */
  class Latch {
    const closedChan: Channel
    var done: Channel?

    constructor (closedChan: Channel)
      requires closedChan.closed
      ensures this.closedChan == closedChan && Valid() && !Resolved()
      ensures done == null
    {
      this.closedChan := closedChan;
      done := null;
    }

    predicate Valid()
      reads this, closedChan
    {
      closedChan.closed
    }

    predicate Resolved()
      reads this, done
    {
      done != null && done.closed
    }

    /** The channel: the same in every call, closed exactly when the latch is resolved. */
    method Done() returns (d: Channel)
      requires Valid()
      modifies this`done
      ensures Valid() && d == done && d.closed == Resolved() == old(Resolved())
      ensures if old(done) != null then d == old(done) else fresh(d)
    {
      if done == null {
        done := new Channel();
      }
      d := done;
    }

    /** Whether a channel can be received from without blocking. */
    method Ready() returns (ready: bool)
      ensures ready == Resolved()
    {
      ready := done != null && done.closed;
    }

    /** The part of `resolve` after the value is stored. */
    method Release()
      requires Valid() && !Resolved()
      modifies this`done, done
      ensures Valid() && Resolved()
      ensures if old(done) != null then done == old(done) else done == closedChan
    {
      if done == null {
        done := closedChan;
      } else {
        done.Close();
      }
    }
  }

  /** What a future is resolved with: a value, or an error, which may be none. */
  datatype Resolution<+T> = GiveValue(value: T) | GiveError(error: Option<Err>)

  /** A cell that is set once. */
  datatype Cell<+T> = Unresolved | Holds(value: T, error: Option<Err>)

  /** The first resolution sets the cell, a later one changes nothing. */
  function SetOnce<T>(cell: Cell<T>, how: Resolution<T>, zero: T): Cell<T> {
    if cell != Unresolved then cell
    else match how
      case GiveValue(value) => Holds(value, None)
      case GiveError(error) => Holds(zero, error)
  }

  /** What a reader gets: the value and the error, or why there is none yet. */
  datatype Read<+T> = Got(value: T, error: Option<Err>) | NotResolved | GaveUp(why: Err)

  function ReadOf<T>(cell: Cell<T>): Read<T> {
    if cell == Unresolved then NotResolved else Got(cell.value, cell.error)
  }

  class Future<T> {
    const l: Latch
    const zero: T
    var v: T
    var err: Option<Err>

    constructor (closedChan: Channel, zero: T)
      requires closedChan.closed
      ensures Valid() && Cell() == Unresolved && l.closedChan == closedChan && this.zero == zero
      ensures fresh(l) && l.done == null
    {
      l := new Latch(closedChan);
      this.zero := zero;
      v, err := zero, None;
    }

    ghost predicate Valid()
      reads this, l, l.closedChan, l.done
    {
      l.Valid() && (!l.Resolved() ==> v == zero && err == None)
    }

    /** The one-shot cell that the future is. */
    function Cell(): Cell<T>
      reads this, l, l.done
    {
      if l.Resolved() then Holds(v, err) else Unresolved
    }

    /** `Resolve` and `ResolveError`: the latch is checked before anything is stored. */
    method Resolve(how: Resolution<T>) returns (panicked: bool)
      requires Valid()
      modifies this`v, this`err, l`done, if l.Resolved() then {} else {l.done}
      ensures Valid() && panicked == old(Cell() != Unresolved)
      ensures Cell() == SetOnce(old(Cell()), how, zero)
      ensures !panicked ==>
                match how
                case GiveValue(value) => v == value && err == None
                case GiveError(error) => v == zero && err == error
      ensures l.done == if old(l.done) != null then old(l.done) else l.closedChan
    {
      panicked := l.Ready();
      if !panicked {
        match how {
          case GiveValue(value) => v := value;
          case GiveError(error) => err := error;
        }
        l.Release();
      }
    }

    method Done() returns (d: Channel)
      requires Valid()
      modifies l`done
      ensures Valid() && d == l.done && Cell() == old(Cell()) && (d.closed <==> Cell() != Unresolved)
      ensures if old(l.done) != null then d == old(l.done) else fresh(d)
    {
      d := l.Done();
    }

    /** `Value` without waiting. */
    method Poll() returns (r: Read<T>)
      requires Valid()
      modifies l`done
      ensures Valid() && Cell() == old(Cell()) && r == ReadOf(Cell())
      ensures r == if l.Resolved() then Got(v, err) else NotResolved
      ensures if old(l.done) != null then l.done == old(l.done) else fresh(l.done)
    {
      var d := l.Done();
      r := if d.closed then Got(v, err) else NotResolved;
    }

    /**
     * `Value` when its wait is over: the future is resolved, or the context of the caller ended. When both are, either
     * may be seen first.
     */
    method Wait(ended: Option<Err>, contextFirst: bool) returns (r: Read<T>)
      requires Valid() && (ended.Some? || Cell() != Unresolved)
      modifies l`done
      ensures Valid() && Cell() == old(Cell())
      ensures r == if ended.Some? && (contextFirst || Cell() == Unresolved) then GaveUp(ended.value) else ReadOf(Cell())
      ensures r == Got(v, err) || (ended.Some? && r == GaveUp(ended.value))
      ensures ended == None ==> l.Resolved() && r == Got(v, err)
    {
      var d := l.Done();
      r := if ended.Some? && (contextFirst || !d.closed) then GaveUp(ended.value) else Got(v, err);
    }
  }

  // ---------- any sequence of calls ----------

  datatype Call<+T> = AskDone | AskValue | ResolveWith(how: Resolution<T>)

  /** The cell after the calls. */
  function CellAfter<T>(calls: seq<Call<T>>, zero: T): Cell<T> {
    if calls == [] then Unresolved
    else
      var before := CellAfter(calls[..|calls| - 1], zero);
      var last := calls[|calls| - 1];
      if last.ResolveWith? then SetOnce(before, last.how, zero) else before
  }

  /** The first resolution decides, and it stays. */
  lemma {:induction false} FirstDecides<T>(calls: seq<Call<T>>, i: nat, zero: T)
    requires i < |calls| && calls[i].ResolveWith?
    requires forall k :: 0 <= k < i ==> !calls[k].ResolveWith?
    ensures CellAfter(calls[..i], zero) == Unresolved
    ensures CellAfter(calls, zero) == SetOnce(Unresolved, calls[i].how, zero)
    ensures calls[i].how.GiveValue? ==> ReadOf(CellAfter(calls, zero)) == Got(calls[i].how.value, None)
    ensures calls[i].how.GiveError? ==> ReadOf(CellAfter(calls, zero)) == Got(zero, calls[i].how.error)
    decreases |calls|
  {
    var n := |calls| - 1;
    if i < n {
      assert calls[..n][..i] == calls[..i];
      FirstDecides(calls[..n], i, zero);
    } else {
      NoneDecides(calls[..n], zero);
    }
  }

  lemma {:induction false} NoneDecides<T>(calls: seq<Call<T>>, zero: T)
    requires forall k :: 0 <= k < |calls| ==> !calls[k].ResolveWith?
    ensures CellAfter(calls, zero) == Unresolved && ReadOf(CellAfter(calls, zero)) == NotResolved
    decreases |calls|
  {
    if calls != [] { NoneDecides(calls[..|calls| - 1], zero); }
  }

  /**
   * For every sequence of calls, a future behaves as the cell: each value that is read and each panic is that of the
   * cell, all channels that were handed out are one channel, and it is closed exactly when the cell is resolved.
   */
  method Drive<T>(closedChan: Channel, zero: T, calls: seq<Call<T>>)
    returns (f: Future<T>, channels: seq<Channel>, seen: seq<Read<T>>, panics: seq<bool>)
    requires closedChan.closed
    ensures f.Valid() && f.Cell() == CellAfter(calls, zero) && closedChan.closed
    ensures |seen| == |panics| == |calls|
    ensures forall k :: 0 <= k < |calls| ==>
              && (panics[k] <==> calls[k].ResolveWith? && CellAfter(calls[..k], zero) != Unresolved)
              && (calls[k].AskValue? ==> seen[k] == ReadOf(CellAfter(calls[..k], zero)))
    ensures forall d :: d in channels ==> d == f.l.done && (d.closed <==> CellAfter(calls, zero) != Unresolved)
  {
    f := new Future<T>(closedChan, zero);
    channels, seen, panics := [], [], [];
    for i := 0 to |calls|
      invariant fresh(f) && f.zero == zero && fresh(f.l) && f.l.closedChan == closedChan && closedChan.closed
      invariant f.l.done != null && f.l.done != closedChan ==> fresh(f.l.done)
      invariant f.Valid() && f.Cell() == CellAfter(calls[..i], zero) && |seen| == |panics| == i
      invariant forall k :: 0 <= k < i ==>
                  && (panics[k] <==> calls[k].ResolveWith? && CellAfter(calls[..k], zero) != Unresolved)
                  && (calls[k].AskValue? ==> seen[k] == ReadOf(CellAfter(calls[..k], zero)))
      invariant forall d :: d in channels ==> d == f.l.done
    {
      assert calls[..i + 1][..i] == calls[..i];
      var r, panicked := NotResolved, false;
      match calls[i] {
        case AskDone =>
          var d := f.Done();
          channels := channels + [d];
        case AskValue =>
          r := f.Poll();
        case ResolveWith(how) =>
          panicked := f.Resolve(how);
      }
      seen, panics := seen + [r], panics + [panicked];
    }
    assert calls[..|calls|] == calls;
  }
}
