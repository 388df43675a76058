/**
 * The executing/finished state of a concurrent operation
 * (ConcurrentProgressReportingOperation): two flags whose setters call each other,
 * so that setting either flag to true clears the other one.
 */
module ProgressOperation {

  /** The two state flags as a value: `_executing` and `_finished`. */
  datatype Flags = Flags(executing: bool, finished: bool)

  /** Both flags start out false. */
  const InitialFlags := Flags(false, false)

  /** An operation is never executing and finished at the same time. */
  predicate Exclusive(f: Flags)
  {
    !(f.executing && f.finished)
  }

  /**
   * The flags after `isExecuting = newValue`: the value is stored, then, reading it back,
   * a true value sets `isFinished` to false.
   */
  function AfterSetExecuting(f: Flags, newValue: bool): (r: Flags)
    decreases if newValue then 1 else 0
    ensures r.executing == newValue
    ensures newValue ==> !r.finished
    ensures !newValue ==> r.finished == f.finished
    ensures Exclusive(r)
  {
    var stored := f.(executing := newValue);
    if stored.executing then AfterSetFinished(stored, false) else stored
  }

  /**
   * The flags after `isFinished = newValue`: the value is stored, then, reading it back,
   * a true value sets `isExecuting` to false.
   */
  function AfterSetFinished(f: Flags, newValue: bool): (r: Flags)
    decreases if newValue then 1 else 0
    ensures r.finished == newValue
    ensures newValue ==> !r.executing
    ensures !newValue ==> r.executing == f.executing
    ensures Exclusive(r)
  {
    var stored := f.(finished := newValue);
    if stored.finished then AfterSetExecuting(stored, false) else stored
  }

  /** One call of either property setter. */
  datatype Setter = SetExecutingTo(value: bool) | SetFinishedTo(value: bool)

  function Apply(f: Flags, call: Setter): Flags
  {
    match call
    case SetExecutingTo(v) => AfterSetExecuting(f, v)
    case SetFinishedTo(v) => AfterSetFinished(f, v)
  }

  /** The flags after a sequence of setter calls, first call first. */
  function Replay(f: Flags, calls: seq<Setter>): Flags
    decreases |calls|
  {
    if calls == [] then f else Replay(Apply(f, calls[0]), calls[1..])
  }

  /** Every sequence of setter calls keeps the flags mutually exclusive. */
  lemma {:induction false} ReplayKeepsExclusive(f: Flags, calls: seq<Setter>)
    requires Exclusive(f)
    ensures Exclusive(Replay(f, calls))
    decreases |calls|
  {
    if calls != [] {
      ReplayKeepsExclusive(Apply(f, calls[0]), calls[1..]);
    }
  }

  /** Starting from the initial flags, no sequence of setter calls leaves both flags true. */
  lemma NeverExecutingAndFinished(calls: seq<Setter>)
    ensures !(Replay(InitialFlags, calls).executing && Replay(InitialFlags, calls).finished)
  {
    ReplayKeepsExclusive(InitialFlags, calls);
  }

  /**
   * The base operation: the two flags, the operation's cancellation flag and its
   * progress counters (`progress.totalUnitCount`, `progress.completedUnitCount`).
   */
  class ConcurrentProgressReportingOperation {
    var executing: bool
    var finished: bool
    var cancelled: bool
    var totalUnitCount: int
    var completedUnitCount: int

    constructor ()
      ensures Current() == InitialFlags && !cancelled
      ensures totalUnitCount == 0 && completedUnitCount == 0
    {
      executing, finished, cancelled := false, false, false;
      totalUnitCount, completedUnitCount := 0, 0;
    }

    /** The two flags as a value. */
    function Current(): Flags
      reads this
    {
      Flags(executing, finished)
    }

    /** The operation runs its own work and reports its state through the flags. */
    function IsAsynchronous(): (r: bool)
      ensures r
    {
      true
    }

    /** `isExecuting = newValue`; terminates because a true value only ever triggers a false one. */
    method SetExecuting(newValue: bool)
      modifies this
      decreases if newValue then 1 else 0
      ensures Current() == AfterSetExecuting(old(Current()), newValue)
      ensures cancelled == old(cancelled)
      ensures totalUnitCount == old(totalUnitCount) && completedUnitCount == old(completedUnitCount)
    {
      executing := newValue;
      if executing {
        SetFinished(false);
      }
    }

    /** `isFinished = newValue`; terminates because a true value only ever triggers a false one. */
    method SetFinished(newValue: bool)
      modifies this
      decreases if newValue then 1 else 0
      ensures Current() == AfterSetFinished(old(Current()), newValue)
      ensures cancelled == old(cancelled)
      ensures totalUnitCount == old(totalUnitCount) && completedUnitCount == old(completedUnitCount)
    {
      finished := newValue;
      if finished {
        SetExecuting(false);
      }
    }

    /** A cancellation request arriving from another thread; it only raises the flag. */
    method Cancel()
      modifies this
      ensures cancelled
      ensures Current() == old(Current())
      ensures totalUnitCount == old(totalUnitCount) && completedUnitCount == old(completedUnitCount)
    {
      cancelled := true;
    }
  }
}
