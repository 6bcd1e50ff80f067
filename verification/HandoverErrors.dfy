/** Errors, in every interleaving: none is swallowed and none is made up. */
module HandoverErrors {
  import opened Handover
  import opened HandoverSystem
  import opened HandoverInvariants
  import opened HandoverTheorems
  import opened HandoverPasses
  import opened Chains

  /** A call that the device makes at `pc` and that fails. */
  predicate CallFails(pc: PC, c: Choice) {
    || (pc.Msyncing? && !c.out.msyncOk)
    || (pc.Announcing? && c.broken)
    || (pc.Suspending? && !c.out.suspendOk)
    || (pc.Flushing? && !c.out.msyncOk)
    || (pc.SentTransferring? && !c.out.transferOk)
  }

  /** The loop has ended with an error, or is about to with the error of a failed suspend. */
  predicate InError(pc: PC) {
    pc.Failed? || (pc.Finishing? && pc.error != NoError)
  }

  ghost predicate StepErrs(s: State, n: Name, c: Choice, t: State) {
    Has(s, n) && Has(t, n) && (InError(t.pc[n]) <==> InError(s.pc[n]) || CallFails(s.pc[n], c))
  }

  lemma PreErrs(s: State, n: Name, c: Choice)
    requires CanStep(s, n)
    requires s.pc[n].Pre? || s.pc[n].Msyncing? || s.pc[n].ShortcutFlag? || s.pc[n].ShortcutInsert?
    ensures StepErrs(s, n, c, StepPre(s, n, c))
  {
  }

  lemma DriverErrs(s: State, n: Name, c: Choice)
    requires CanStep(s, n)
    requires s.pc[n].Fetching? || s.pc[n].PostGet? || s.pc[n].Announcing? || s.pc[n].PostMigrate?
    ensures StepErrs(s, n, c, StepDriver(s, n, c))
  {
  }

  lemma SentErrs(s: State, n: Name, c: Choice)
    requires CanStep(s, n)
    requires s.pc[n].SentWait? || s.pc[n].SentMark?
    ensures StepErrs(s, n, c, StepSent(s, n, c))
  {
  }

  lemma TransferErrs(s: State, n: Name, c: Choice)
    requires CanStep(s, n)
    requires || s.pc[n].SentSuspendWait? || s.pc[n].SentSuspendRead? || s.pc[n].SentTransferWait?
             || s.pc[n].SentTransferTest? || s.pc[n].SentTransferring?
    ensures StepErrs(s, n, c, StepTransfer(s, n, c))
  {
  }

  lemma ThrottleErrs(s: State, n: Name, c: Choice)
    requires CanStep(s, n)
    requires s.pc[n].Delaying? || s.pc[n].DelayRead? || s.pc[n].DelayFull?
    ensures StepErrs(s, n, c, StepThrottle(s, n, c))
  {
  }

  lemma CycleErrs(s: State, n: Name, c: Choice)
    requires CanStep(s, n)
    requires s.pc[n].Counting? || s.pc[n].MarkFlag? || s.pc[n].MarkInsert? || s.pc[n].CountReady?
    ensures StepErrs(s, n, c, StepCycle(s, n, c))
  {
  }

  lemma SuspendErrs(s: State, n: Name, c: Choice)
    requires CanStep(s, n)
    requires s.pc[n].SuspendWait? || s.pc[n].SuspendTest? || s.pc[n].VMWait? || s.pc[n].VMTest?
    ensures StepErrs(s, n, c, StepSuspend(s, n, c))
  {
  }

  lemma CallbackErrs(s: State, n: Name, c: Choice)
    requires CanStep(s, n)
    requires s.pc[n].Suspending? || s.pc[n].Flushing? || s.pc[n].Stopping? || s.pc[n].Finishing?
    ensures StepErrs(s, n, c, StepCallback(s, n, c))
  {
  }

  lemma ThreadErrs(s: State, n: Name, c: Choice)
    requires CanStep(s, n)
    ensures StepErrs(s, n, c, StepThread(s, n, c))
  {
    match s.pc[n]
    case Pre | Msyncing | ShortcutFlag | ShortcutInsert => PreErrs(s, n, c);
    case Fetching | PostGet | Announcing | PostMigrate => DriverErrs(s, n, c);
    case SentWait | SentMark => SentErrs(s, n, c);
    case SentSuspendWait | SentSuspendRead | SentTransferWait | SentTransferTest | SentTransferring =>
      TransferErrs(s, n, c);
    case Delaying | DelayRead | DelayFull => ThrottleErrs(s, n, c);
    case Counting | MarkFlag | MarkInsert | CountReady => CycleErrs(s, n, c);
    case SuspendWait | SuspendTest | VMWait | VMTest => SuspendErrs(s, n, c);
    case Suspending | Flushing | Stopping | Finishing(_) => CallbackErrs(s, n, c);
  }

  /** Step `k` is a call of the device that failed. */
  predicate FailsAt(ss: seq<State>, acts: seq<Action>, n: Name, k: nat) {
    k < |acts| && k < |ss| && Steps(acts[k], n) && Has(ss[k], n) && CallFails(ss[k].pc[n], acts[k].choice)
  }

  ghost predicate Explained(ss: seq<State>, acts: seq<Action>, n: Name, i: nat) {
    && i < |ss| && Has(ss[i], n)
    && (InError(ss[i].pc[n]) <==> exists k: nat :: k < i && FailsAt(ss, acts, n, k))
  }

  lemma NextErrs(ss: seq<State>, acts: seq<Action>, i: nat, n: Name)
    requires Run(ss, acts) && i < |acts| && Has(ss[i], n)
    ensures Has(ss[i + 1], n)
    ensures InError(ss[i + 1].pc[n]) <==> InError(ss[i].pc[n]) || FailsAt(ss, acts, n, i)
  {
    RunStep(ss, acts, i);
    if Steps(acts[i], n) {
      ThreadErrs(ss[i], n, acts[i].choice);
    } else {
      NextLeaves(ss, acts, i, n);
    }
  }

  lemma NextExplained(ss: seq<State>, acts: seq<Action>, i: nat, n: Name)
    requires Run(ss, acts) && i < |acts| && Explained(ss, acts, n, i)
    ensures Explained(ss, acts, n, i + 1)
  {
    NextErrs(ss, acts, i, n);
    if k: nat :| k < i + 1 && FailsAt(ss, acts, n, k) {
      assert k < i || FailsAt(ss, acts, n, i);
    }
  }

  lemma StartExplained(ss: seq<State>, acts: seq<Action>, n: Name)
    requires Run(ss, acts) && Has(ss[0], n)
    ensures Explained(ss, acts, n, 0)
  {
  }

  lemma RunExplained(ss: seq<State>, acts: seq<Action>, i: nat, n: Name)
    requires Run(ss, acts) && i < |ss| && Has(ss[0], n)
    ensures Explained(ss, acts, n, i)
  {
    StartExplained(ss, acts, n);
    ghost var explained: nat -> bool := (k: nat) => Explained(ss, acts, n, k);
    forall k: nat | k < i && explained(k) ensures explained(k + 1) {
      NextExplained(ss, acts, k, n);
    }
    UpTo(explained, i);
  }

  /** In every state of every run a device's loop has ended with an error, or is about to, exactly if one of its calls
      has failed: of the msync of a pass, of the driver, of the suspend or its msync, or of the transfer. */
  lemma FailedExactlyWhen(ss: seq<State>, acts: seq<Action>, i: nat, n: Name)
    requires Run(ss, acts) && i < |ss| && n in ss[i].pc
    ensures InError(ss[i].pc[n]) <==> exists k: nat :: k < i && FailsAt(ss, acts, n, k)
  {
    RunHas(ss, acts, i, 0, n);
    RunExplained(ss, acts, i, n);
  }
}
