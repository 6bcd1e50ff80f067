/** The suspend as the whole concurrent system makes it: its callbacks over a run, and its two channels. */
module HandoverTrace {
  import opened Handover
  import opened HandoverSystem
  import opened HandoverInvariants
  import opened HandoverTheorems
  import opened Chains
  import V = VMState

  /** The callbacks are those of one attempt `c`, which succeeded exactly if the machine counts as suspended. */
  ghost predicate Tried(vm: VM, c: V.Call) {
    vm.callbacks == V.Attempt(vm.hasBefore, vm.hasAfter, c) && vm.suspended == V.Succeeds(c)
  }

  function Hook(vm: VM): seq<Callback> {
    if vm.hasBefore then [BeforeSuspend] else []
  }

  /** How far the attempt has come when the thread that makes it is at `pc`. */
  ghost predicate AtPhase(vm: VM, pc: PC) {
    match pc
    case Suspending => vm.callbacks == Hook(vm)
    case Flushing => vm.callbacks == Hook(vm) + [Suspend(true)]
    case Stopping => vm.callbacks == Hook(vm) + [Suspend(true), Msync(true)]
    case Finishing(e) => exists c :: Tried(vm, c)
    case _ => vm.callbacks == []
  }

  /** The mutex of the suspend says who is making the attempt. */
  ghost predicate TraceKept(s: State) {
    if s.m.suspendCompleted then exists c :: Tried(s.m.vm, c)
    else if s.locks.suspend.By? && s.locks.suspend.n in s.pc then AtPhase(s.m.vm, s.pc[s.locks.suspend.n])
    else s.m.vm.callbacks == []
  }

  // ----- every step -----

  /** Steps outside the attempt leave it alone. */
  ghost predicate Aside(s: State, t: State, n: Name) {
    && t.m.vm == s.m.vm && t.m.suspendCompleted == s.m.suspendCompleted && t.locks.suspend == s.locks.suspend
    && n in t.pc && t.pc == s.pc[n := t.pc[n]]
  }

  lemma AsideKeeps(s: State, t: State, n: Name)
    requires Aside(s, t, n) && n in s.pc && s.locks.suspend != By(n) && TraceKept(s)
    ensures TraceKept(t)
  {
  }

  ghost predicate InAttempt(pc: PC) {
    InSuspend(pc) || pc.SentSuspendWait? || pc.SentSuspendRead?
  }

  lemma PreAside(s: State, n: Name, c: Choice)
    requires CanStep(s, n) && (s.pc[n].Pre? || s.pc[n].Msyncing? || s.pc[n].ShortcutFlag? || s.pc[n].ShortcutInsert?)
    ensures Aside(s, StepThread(s, n, c), n)
  {
  }

  lemma DriverAside(s: State, n: Name, c: Choice)
    requires CanStep(s, n) && (s.pc[n].Fetching? || s.pc[n].PostGet? || s.pc[n].Announcing? || s.pc[n].PostMigrate?)
    ensures Aside(s, StepThread(s, n, c), n)
  {
  }

  lemma SentAside(s: State, n: Name, c: Choice)
    requires CanStep(s, n) && (s.pc[n].SentWait? || s.pc[n].SentMark?)
    ensures Aside(s, StepThread(s, n, c), n)
  {
  }

  lemma TransferAside(s: State, n: Name, c: Choice)
    requires CanStep(s, n) && (s.pc[n].SentTransferWait? || s.pc[n].SentTransferTest? || s.pc[n].SentTransferring?)
    ensures Aside(s, StepThread(s, n, c), n)
  {
  }

  lemma ThrottleAside(s: State, n: Name, c: Choice)
    requires CanStep(s, n) && (s.pc[n].Delaying? || s.pc[n].DelayRead? || s.pc[n].DelayFull?)
    ensures Aside(s, StepThread(s, n, c), n)
  {
  }

  lemma CycleAside(s: State, n: Name, c: Choice)
    requires CanStep(s, n) && (s.pc[n].Counting? || s.pc[n].MarkFlag? || s.pc[n].MarkInsert? || s.pc[n].CountReady?)
    ensures Aside(s, StepThread(s, n, c), n)
  {
  }

  lemma HooksAside(s: State, n: Name, c: Choice)
    requires CanStep(s, n) && !InAttempt(s.pc[n])
    ensures Aside(s, StepThread(s, n, c), n)
  {
    match s.pc[n]
    case Pre | Msyncing | ShortcutFlag | ShortcutInsert => PreAside(s, n, c);
    case Fetching | PostGet | Announcing | PostMigrate => DriverAside(s, n, c);
    case SentWait | SentMark => SentAside(s, n, c);
    case SentTransferWait | SentTransferTest | SentTransferring => TransferAside(s, n, c);
    case Delaying | DelayRead | DelayFull => ThrottleAside(s, n, c);
    case Counting | MarkFlag | MarkInsert | CountReady => CycleAside(s, n, c);
  }

  lemma LookKeeps(s: State, n: Name, c: Choice)
    requires Ready(s, n) && TraceKept(s) && (s.pc[n].SentSuspendWait? || s.pc[n].SentSuspendRead?)
    ensures TraceKept(StepThread(s, n, c))
  {
  }

  lemma EnterKeeps(s: State, n: Name, c: Choice)
    requires Ready(s, n) && TraceKept(s) && (s.pc[n].SuspendWait? || s.pc[n].SuspendTest? || s.pc[n].VMWait?)
    ensures TraceKept(StepThread(s, n, c))
  {
  }

  lemma StartKeeps(s: State, n: Name, c: Choice)
    requires Ready(s, n) && TraceKept(s) && s.pc[n].VMTest?
    ensures TraceKept(StepThread(s, n, c))
  {
  }

  lemma SuspendCallKeeps(s: State, n: Name, c: Choice)
    requires Ready(s, n) && TraceKept(s) && s.pc[n].Suspending?
    ensures TraceKept(StepThread(s, n, c))
  {
    var vm := StepThread(s, n, c).m.vm;
    if !c.out.suspendOk {
      assert Tried(vm, V.Call(false, false));
    }
  }

  lemma FlushCallKeeps(s: State, n: Name, c: Choice)
    requires Ready(s, n) && TraceKept(s) && s.pc[n].Flushing?
    ensures TraceKept(StepThread(s, n, c))
  {
    var vm := StepThread(s, n, c).m.vm;
    if c.out.msyncOk {
      assert vm.callbacks == Hook(vm) + [Suspend(true)] + [Msync(true)];
    } else {
      assert vm.callbacks == Hook(vm) + [Suspend(true)] + [Msync(false)];
      assert Tried(vm, V.Call(true, false));
    }
  }

  lemma StopKeeps(s: State, n: Name, c: Choice)
    requires Ready(s, n) && TraceKept(s) && s.pc[n].Stopping?
    ensures TraceKept(StepThread(s, n, c))
  {
    assert Tried(StepThread(s, n, c).m.vm, V.Call(true, true));
  }

  lemma FinishKeeps(s: State, n: Name, c: Choice)
    requires Ready(s, n) && TraceKept(s) && s.pc[n].Finishing?
    ensures TraceKept(StepThread(s, n, c))
  {
    var a :| Tried(s.m.vm, a);
    assert Tried(StepThread(s, n, c).m.vm, a);
  }

  lemma AttemptKeeps(s: State, n: Name, c: Choice)
    requires Ready(s, n) && TraceKept(s) && InAttempt(s.pc[n])
    ensures TraceKept(StepThread(s, n, c))
  {
    match s.pc[n]
    case SentSuspendWait | SentSuspendRead => LookKeeps(s, n, c);
    case SuspendWait | SuspendTest | VMWait => EnterKeeps(s, n, c);
    case VMTest => StartKeeps(s, n, c);
    case Suspending => SuspendCallKeeps(s, n, c);
    case Flushing => FlushCallKeeps(s, n, c);
    case Stopping => StopKeeps(s, n, c);
    case Finishing(_) => FinishKeeps(s, n, c);
  }

  lemma ThreadKeepsTrace(s: State, n: Name, c: Choice)
    requires Ready(s, n) && TraceKept(s)
    ensures TraceKept(StepThread(s, n, c))
  {
    if InAttempt(s.pc[n]) {
      AttemptKeeps(s, n, c);
    } else {
      HooksAside(s, n, c);
      AsideKeeps(s, StepThread(s, n, c), n);
    }
  }

  lemma InvIsReady(s: State, n: Name)
    requires Inv(s) && CanStep(s, n)
    ensures Ready(s, n)
  {
  }

  lemma ActionKeepsTrace(s: State, a: Action)
    requires Inv(s) && Enabled(s, a) && TraceKept(s)
    ensures TraceKept(Do(s, a))
  {
    if a.Thread? {
      InvIsReady(s, a.n);
      ThreadKeepsTrace(s, a.n, a.choice);
    }
  }

  lemma NextKeepsTrace(ss: seq<State>, acts: seq<Action>, i: nat)
    requires Run(ss, acts) && i < |acts| && TraceKept(ss[i])
    ensures TraceKept(ss[i + 1])
  {
    RunKeepsInv(ss, acts, i);
    RunStep(ss, acts, i);
    ActionKeepsTrace(ss[i], acts[i]);
  }

  lemma RunKeepsTrace(ss: seq<State>, acts: seq<Action>, i: nat)
    requires Run(ss, acts) && i < |ss|
    ensures TraceKept(ss[i])
  {
    forall k | 0 <= k < |ss| - 1 && TraceKept(ss[k]) ensures TraceKept(ss[k + 1]) {
      NextKeepsTrace(ss, acts, k);
    }
    Stepwise(ss, (s: State) => TraceKept(s), 0, i);
  }

  // ----- what a run does -----

  lemma PhaseIsPrefix(vm: VM, pc: PC) returns (c: V.Call)
    requires AtPhase(vm, pc)
    ensures vm.callbacks <= V.Attempt(vm.hasBefore, vm.hasAfter, c)
  {
    c := V.Call(true, true);
    if pc.Finishing? {
      c :| Tried(vm, c);
    }
  }

  /** However many threads find all devices ready, a run makes at most one attempt to suspend: its callbacks are a
      beginning of one attempt, and all of it, with the right outcome, once the suspend counts as completed. */
  lemma OneAttemptPerRun(ss: seq<State>, acts: seq<Action>, i: nat) returns (c: V.Call)
    requires Run(ss, acts) && i < |ss|
    ensures var vm := ss[i].m.vm;
            && vm.callbacks <= V.Attempt(vm.hasBefore, vm.hasAfter, c)
            && (ss[i].m.suspendCompleted ==> Tried(vm, c))
  {
    RunKeepsTrace(ss, acts, i);
    var s := ss[i];
    if s.m.suspendCompleted {
      c :| Tried(s.m.vm, c);
    } else if s.locks.suspend.By? && s.locks.suspend.n in s.pc {
      c := PhaseIsPrefix(s.m.vm, s.pc[s.locks.suspend.n]);
    } else {
      c := V.Call(true, true);
    }
  }

  /** Neither channel is closed twice: whoever is about to close one finds it open. */
  lemma ChannelsClosedOnce(ss: seq<State>, acts: seq<Action>, i: nat, n: Name)
    requires Run(ss, acts) && i < |ss| && n in ss[i].pc
    ensures ss[i].pc[n].Finishing? ==> !ss[i].m.doneChannelClosed
    ensures ss[i].pc[n].Stopping? ==> !ss[i].m.vm.channelClosed
  {
    RunKeepsInv(ss, acts, i);
    assert ThreadKept(ss[i], n);
  }

  // ----- a failed callback -----

  predicate Failure(vm: VM) {
    Suspend(false) in vm.callbacks || Msync(false) in vm.callbacks
  }

  lemma FailedAttempt(vm: VM, c: V.Call)
    requires Tried(vm, c) && Failure(vm)
    ensures !vm.suspended
  {
  }

  lemma FailureIsNotSuspended(s: State)
    requires TraceKept(s) && Failure(s.m.vm)
    ensures !s.m.vm.suspended
  {
    var o := s.locks.suspend;
    if s.m.suspendCompleted || (o.By? && o.n in s.pc && s.pc[o.n].Finishing?) {
      var c :| Tried(s.m.vm, c);
      FailedAttempt(s.m.vm, c);
    }
  }

  lemma LongerFailure(vm: VM, more: seq<Callback>)
    requires Failure(vm)
    ensures Failure(vm.(callbacks := vm.callbacks + more))
  {
  }

  /** A step leaves the machine's record or adds to it. */
  ghost predicate Longer(vm: VM, next: VM, more: seq<Callback>) {
    next.callbacks == vm.callbacks + more
  }

  lemma StillFailure(vm: VM, next: VM, more: seq<Callback>)
    requires Failure(vm) && Longer(vm, next, more)
    ensures Failure(next)
  {
    LongerFailure(vm, more);
  }

  lemma EnterLonger(s: State, n: Name, c: Choice) returns (more: seq<Callback>)
    requires CanStep(s, n) && InAttempt(s.pc[n])
    requires !s.pc[n].Suspending? && !s.pc[n].Flushing? && !s.pc[n].Stopping? && !s.pc[n].Finishing?
    ensures Longer(s.m.vm, StepThread(s, n, c).m.vm, more)
  {
    more := if s.pc[n].VMTest? && !s.m.vm.suspended && s.m.vm.hasBefore then [BeforeSuspend] else [];
    assert StepThread(s, n, c) == if PastScan(s.pc[n]) then StepTransfer(s, n, c) else StepSuspend(s, n, c);
  }

  lemma AttemptLonger(s: State, n: Name, c: Choice) returns (more: seq<Callback>)
    requires CanStep(s, n) && (s.pc[n].Suspending? || s.pc[n].Flushing?)
    ensures Longer(s.m.vm, StepThread(s, n, c).m.vm, more)
  {
    more := if s.pc[n].Suspending? then [Suspend(c.out.suspendOk)] else [Msync(c.out.msyncOk)];
  }

  lemma AfterLonger(s: State, n: Name, c: Choice) returns (more: seq<Callback>)
    requires CanStep(s, n) && (s.pc[n].Stopping? || s.pc[n].Finishing?)
    ensures Longer(s.m.vm, StepThread(s, n, c).m.vm, more)
  {
    more := if s.pc[n].Stopping? && s.m.vm.hasAfter then [AfterSuspend] else [];
  }

  lemma ThreadLonger(s: State, n: Name, c: Choice) returns (more: seq<Callback>)
    requires CanStep(s, n)
    ensures Longer(s.m.vm, StepThread(s, n, c).m.vm, more)
  {
    if !InAttempt(s.pc[n]) {
      HooksAside(s, n, c);
      more := [];
    } else if s.pc[n].Suspending? || s.pc[n].Flushing? {
      more := AttemptLonger(s, n, c);
    } else if s.pc[n].Stopping? || s.pc[n].Finishing? {
      more := AfterLonger(s, n, c);
    } else {
      more := EnterLonger(s, n, c);
    }
  }

  lemma ActionKeepsFailure(s: State, a: Action)
    requires Enabled(s, a) && Failure(s.m.vm)
    ensures Failure(Do(s, a).m.vm)
  {
    if a.Thread? {
      var more := ThreadLonger(s, a.n, a.choice);
      StillFailure(s.m.vm, StepThread(s, a.n, a.choice).m.vm, more);
    }
  }

  lemma NextKeepsFailure(ss: seq<State>, acts: seq<Action>, i: nat)
    requires Run(ss, acts) && i < |acts| && Failure(ss[i].m.vm)
    ensures Failure(ss[i + 1].m.vm)
  {
    RunStep(ss, acts, i);
    ActionKeepsFailure(ss[i], acts[i]);
  }

  lemma FailureStays(ss: seq<State>, acts: seq<Action>, i: nat, j: nat)
    requires Run(ss, acts) && i <= j < |ss| && Failure(ss[i].m.vm)
    ensures Failure(ss[j].m.vm)
  {
    forall k | i <= k < |ss| - 1 && Failure(ss[k].m.vm) ensures Failure(ss[k + 1].m.vm) {
      NextKeepsFailure(ss, acts, k);
    }
    Stepwise(ss, (s: State) => Failure(s.m.vm), i, j);
  }

  /** From the moment a suspend or the msync after it has failed, no later state is suspended or has transferred
      authority, even before the failure has been recorded. */
  lemma FailedCallbackNeverTransfers(ss: seq<State>, acts: seq<Action>, i: nat, j: nat)
    requires Run(ss, acts) && i <= j < |ss| && Failure(ss[i].m.vm)
    ensures !ss[j].m.vm.suspended && !ss[j].m.transferCompleted && ss[j].m.transfers == 0
  {
    FailureStays(ss, acts, i, j);
    RunKeepsTrace(ss, acts, j);
    RunKeepsInv(ss, acts, j);
    FailureIsNotSuspended(ss[j]);
    NotSuspendedNotTransferred(ss[j]);
  }

  lemma NotSuspendedNotTransferred(s: State)
    requires Inv(s) && !s.m.vm.suspended
    ensures !s.m.transferCompleted && s.m.transfers == 0
  {
    if s.m.transferCompleted {
      TransferredSource(s);
    }
  }
}
