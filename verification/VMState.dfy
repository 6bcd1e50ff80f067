/** The state of the virtual machine during a migration (vm_state.go). */
module VMState {
  import opened Handover

  class VMStateMgr {
    const hasBefore: bool
    const hasAfter: bool
    var suspended: bool
    var channelClosed: bool
    ghost var callbacks: seq<Callback>

    ghost function Value(): VM
      reads this
    {
      VM(hasBefore, hasAfter, suspended, channelClosed, callbacks)
    }

    ghost predicate Valid()
      reads this
    {
      channelClosed == suspended
    }

    constructor (hasBefore: bool, hasAfter: bool)
      ensures Valid() && Value() == FreshVM(hasBefore, hasAfter)
    {
      this.hasBefore, this.hasAfter := hasBefore, hasAfter;
      suspended, channelClosed := false, false;
      callbacks := [];
    }

    method CheckSuspendedVM() returns (isSuspended: bool)
      ensures isSuspended == suspended
    {
      isSuspended := suspended;
    }

    /** `suspendOk` and `msyncOk` are how the two callbacks turn out, if they are called. */
    method SuspendAndMsync(suspendOk: bool, msyncOk: bool) returns (e: Error)
      requires Valid()
      modifies this
      ensures Valid()
      ensures (Value(), e) == Handover.SuspendAndMsync(old(Value()), suspendOk, msyncOk)
    {
      if suspended {
        return NoError;
      }
      if hasBefore {
        callbacks := callbacks + [BeforeSuspend];
      }
      callbacks := callbacks + [Suspend(suspendOk)];
      if !suspendOk {
        return CouldNotSuspend;
      }
      callbacks := callbacks + [Callback.Msync(msyncOk)];
      if !msyncOk {
        return CouldNotMsync;
      }
      if hasAfter {
        callbacks := callbacks + [AfterSuspend];
      }
      suspended := true;
      assert !channelClosed; // closing a closed channel would panic
      channelClosed := true;
      return NoError;
    }

    method Msync(msyncOk: bool) returns (e: Error)
      ensures e == if msyncOk then NoError else CouldNotMsync
    {
      e := if msyncOk then NoError else CouldNotMsync;
    }
  }

  // ----- the trace of callbacks over any sequence of calls -----

  datatype Call = Call(suspendOk: bool, msyncOk: bool)

  predicate Succeeds(c: Call) {
    c.suspendOk && c.msyncOk
  }

  function AfterCalls(v: VM, calls: seq<Call>): VM
    decreases |calls|
  {
    if calls == [] then v
    else AfterCalls(Handover.SuspendAndMsync(v, calls[0].suspendOk, calls[0].msyncOk).0, calls[1..])
  }

  /** The callbacks of one attempt, written out. */
  function Attempt(hasBefore: bool, hasAfter: bool, c: Call): seq<Callback> {
    (if hasBefore then [BeforeSuspend] else []) +
    if !c.suspendOk then [Suspend(false)]
    else if !c.msyncOk then [Suspend(true), Msync(false)]
    else [Suspend(true), Msync(true)] + if hasAfter then [AfterSuspend] else []
  }

  function Attempts(hasBefore: bool, hasAfter: bool, calls: seq<Call>): seq<Callback> {
    if calls == [] then []
    else Attempt(hasBefore, hasAfter, calls[0]) + Attempts(hasBefore, hasAfter, calls[1..])
  }

  /** How many of the calls do anything: those up to and including the first that succeeds. */
  function Effective(calls: seq<Call>): (k: nat)
    ensures k <= |calls|
    ensures forall i :: 0 <= i < k - 1 ==> !Succeeds(calls[i])
    ensures (exists i :: 0 <= i < |calls| && Succeeds(calls[i])) <==> (k > 0 && Succeeds(calls[k - 1]))
    ensures (forall i :: 0 <= i < |calls| ==> !Succeeds(calls[i])) ==> k == |calls|
  {
    if calls == [] then 0
    else if Succeeds(calls[0]) then 1
    else
      assert forall i :: 1 <= i < |calls| ==> calls[1..][i - 1] == calls[i];
      1 + Effective(calls[1..])
  }

  lemma {:induction false} SuspendedIgnoresCalls(v: VM, calls: seq<Call>)
    requires v.suspended
    ensures AfterCalls(v, calls) == v
    decreases |calls|
  {
    if calls != [] {
      SuspendedIgnoresCalls(v, calls[1..]);
    }
  }

  /** One attempt from a running machine appends exactly its callbacks and suspends exactly on success. */
  lemma OneAttempt(v: VM, c: Call)
    requires !v.suspended
    ensures var w := Handover.SuspendAndMsync(v, c.suspendOk, c.msyncOk).0;
            && w.callbacks == v.callbacks + Attempt(v.hasBefore, v.hasAfter, c)
            && w.suspended == Succeeds(c)
            && w.channelClosed == (v.channelClosed || Succeeds(c))
            && w.hasBefore == v.hasBefore && w.hasAfter == v.hasAfter
  {
  }

  lemma FirstFailed(hasBefore: bool, hasAfter: bool, calls: seq<Call>)
    requires calls != [] && !Succeeds(calls[0])
    ensures var k, l := Effective(calls), Effective(calls[1..]);
            Attempts(hasBefore, hasAfter, calls[..k])
            == Attempt(hasBefore, hasAfter, calls[0]) + Attempts(hasBefore, hasAfter, calls[1..][..l])
  {
    var k := Effective(calls);
    assert calls[..k][1..] == calls[1..][..k - 1];
  }

  lemma LaterSuccess(calls: seq<Call>)
    requires calls != [] && !Succeeds(calls[0])
    ensures (exists i :: 0 <= i < |calls| && Succeeds(calls[i])) <==>
              exists i :: 0 <= i < |calls[1..]| && Succeeds(calls[1..][i])
  {
    if i :| 0 <= i < |calls| && Succeeds(calls[i]) {
      assert calls[1..][i - 1] == calls[i];
    }
    if i :| 0 <= i < |calls[1..]| && Succeeds(calls[1..][i]) {
      assert calls[i + 1] == calls[1..][i];
    }
  }

  /** Over any sequence of calls: the trace is the failed attempts followed by at most one complete one, and the
      machine is suspended, with its channel closed, exactly when some call succeeded. */
  lemma {:induction false} SuspendTrace(v: VM, calls: seq<Call>)
    requires !v.suspended && !v.channelClosed
    ensures var w := AfterCalls(v, calls); var k := Effective(calls);
            && w.callbacks == v.callbacks + Attempts(v.hasBefore, v.hasAfter, calls[..k])
            && (w.suspended <==> exists i :: 0 <= i < |calls| && Succeeds(calls[i]))
            && w.channelClosed == w.suspended
    decreases |calls|
  {
    if calls != [] {
      var c, rest := calls[0], calls[1..];
      OneAttempt(v, c);
      if Succeeds(c) {
        SuspendedIgnoresCalls(Handover.SuspendAndMsync(v, c.suspendOk, c.msyncOk).0, rest);
        assert calls[..1] == [c];
        assert Attempts(v.hasBefore, v.hasAfter, [c]) == Attempt(v.hasBefore, v.hasAfter, c);
      } else {
        SuspendTrace(Handover.SuspendAndMsync(v, c.suspendOk, c.msyncOk).0, rest);
        LaterSuccess(calls);
        FirstFailed(v.hasBefore, v.hasAfter, calls);
      }
    }
  }

  /** No call after the first success runs a callback. */
  lemma CallsAfterSuccess(v: VM, calls: seq<Call>, more: seq<Call>)
    requires !v.suspended && !v.channelClosed
    requires exists i :: 0 <= i < |calls| && Succeeds(calls[i])
    ensures AfterCalls(AfterCalls(v, calls), more) == AfterCalls(v, calls)
  {
    SuspendTrace(v, calls);
    SuspendedIgnoresCalls(AfterCalls(v, calls), more);
  }
}
