/** What the lists of a device do to it in every interleaving: its counters are those of the convergence results, fed
    with the lengths of the lists that it announced, and these alone make it ready. */
module HandoverCounts {
  import opened Handover
  import opened HandoverSystem
  import opened HandoverInvariants
  import opened HandoverTheorems
  import opened HandoverPasses
  import opened Convergence
  import opened Chains

  /** The count that step `i` takes, if it is one of the device's. */
  predicate Counts(ss: seq<State>, acts: seq<Action>, n: Name, i: nat) {
    i < |acts| && i < |ss| && Steps(acts[i], n) && Has(ss[i], n) && ss[i].pc[n].Counting?
  }

  /** The lengths of the lists that the device has counted before state `i`. */
  function CountsOf(ss: seq<State>, acts: seq<Action>, n: Name, i: nat): seq<nat> {
    if i == 0 then []
    else
      CountsOf(ss, acts, n, i - 1) + if Counts(ss, acts, n, i - 1) then [ss[i - 1].store[n].listed] else []
  }

  predicate TurnedOff(n: Name, d: Status) {
    n == MEMORY && d.maxCycles <= 0
  }

  /** A device at `pc` has the counters of `e`, and is flagged ready when `e` is, unless it is about to be. */
  predicate CountsAs(n: Name, o: Own, e: Status) {
    && o.d.totalCycles == e.totalCycles && o.d.belowThreshold == e.belowThreshold
    && o.d.maxDirtyBlocks == e.maxDirtyBlocks && o.d.minCycles == e.minCycles && o.d.maxCycles == e.maxCycles
    && (o.pc.ShortcutFlag? || o.pc.ShortcutInsert? ==> TurnedOff(n, o.d))
    && (TurnedOff(n, o.d) || if o.pc.MarkFlag? then e.ready else o.d.ready == e.ready)
  }

  function Expected(o: Own, e: Status): Status {
    if o.pc.Counting? then Cycle(e, o.listed) else e
  }

  /** How a step of its own changes the device. */
  predicate OwnCounted(n: Name, o: Own, t: Own) {
    match o.pc
    case Counting =>
      && t.d == Counted(o.d, o.listed) && (t.pc.MarkFlag? <==> CycleSettles(o.d, o.listed))
      && !t.pc.ShortcutFlag? && !t.pc.ShortcutInsert?
    case MarkFlag => t.d == Flagged(o.d) && !t.pc.MarkFlag? && !t.pc.ShortcutFlag? && !t.pc.ShortcutInsert?
    case ShortcutFlag => t.d == Flagged(o.d) && !t.pc.MarkFlag? && !t.pc.ShortcutFlag?
    case _ =>
      && t.d == o.d.(sentDirty := t.d.sentDirty, suspendedAtPre := t.d.suspendedAtPre)
      && !t.pc.MarkFlag? && !t.pc.ShortcutInsert? && (t.pc.ShortcutFlag? ==> TurnedOff(n, t.d))
  }

  lemma CountsOn(n: Name, o: Own, t: Own, e: Status)
    requires CountsAs(n, o, e) && OwnCounted(n, o, t)
    ensures CountsAs(n, t, Expected(o, e))
  {
  }

  ghost predicate StepCounted(s: State, n: Name, t: State) {
    Has(s, n) && Has(t, n) && OwnCounted(n, OwnOf(s, n), OwnOf(t, n))
  }

  lemma PreCounts(s: State, n: Name, c: Choice)
    requires CanStep(s, n)
    requires s.pc[n].Pre? || s.pc[n].Msyncing? || s.pc[n].ShortcutFlag? || s.pc[n].ShortcutInsert?
    ensures StepCounted(s, n, StepPre(s, n, c))
  {
  }

  lemma DriverCounts(s: State, n: Name, c: Choice)
    requires CanStep(s, n)
    requires s.pc[n].Fetching? || s.pc[n].PostGet? || s.pc[n].Announcing? || s.pc[n].PostMigrate?
    ensures StepCounted(s, n, StepDriver(s, n, c))
  {
  }

  lemma SentCounts(s: State, n: Name, c: Choice)
    requires CanStep(s, n)
    requires s.pc[n].SentWait? || s.pc[n].SentMark?
    ensures StepCounted(s, n, StepSent(s, n, c))
  {
  }

  lemma TransferCounts(s: State, n: Name, c: Choice)
    requires CanStep(s, n)
    requires || s.pc[n].SentSuspendWait? || s.pc[n].SentSuspendRead? || s.pc[n].SentTransferWait?
             || s.pc[n].SentTransferTest? || s.pc[n].SentTransferring?
    ensures StepCounted(s, n, StepTransfer(s, n, c))
  {
  }

  lemma ThrottleCounts(s: State, n: Name, c: Choice)
    requires CanStep(s, n)
    requires s.pc[n].Delaying? || s.pc[n].DelayRead? || s.pc[n].DelayFull?
    ensures StepCounted(s, n, StepThrottle(s, n, c))
  {
  }

  lemma CycleCounts(s: State, n: Name, c: Choice)
    requires CanStep(s, n)
    requires s.pc[n].Counting? || s.pc[n].MarkFlag? || s.pc[n].MarkInsert? || s.pc[n].CountReady?
    ensures StepCounted(s, n, StepCycle(s, n, c))
  {
  }

  lemma SuspendCounts(s: State, n: Name, c: Choice)
    requires CanStep(s, n)
    requires s.pc[n].SuspendWait? || s.pc[n].SuspendTest? || s.pc[n].VMWait? || s.pc[n].VMTest?
    ensures StepCounted(s, n, StepSuspend(s, n, c))
  {
  }

  lemma CallbackLeaves(s: State, n: Name, c: Choice)
    requires CanStep(s, n) && (s.pc[n].Suspending? || s.pc[n].Flushing? || s.pc[n].Stopping? || s.pc[n].Finishing?)
    ensures var t := StepCallback(s, n, c);
            && Has(t, n) && t.m.devices == s.m.devices
            && (t.pc[n].Flushing? || t.pc[n].Stopping? || t.pc[n].Finishing? || t.pc[n].Pre? || t.pc[n].Failed?)
  {
  }

  lemma CallbackCounts(s: State, n: Name, c: Choice)
    requires CanStep(s, n) && (s.pc[n].Suspending? || s.pc[n].Flushing? || s.pc[n].Stopping? || s.pc[n].Finishing?)
    ensures StepCounted(s, n, StepCallback(s, n, c))
  {
    CallbackLeaves(s, n, c);
  }

  lemma ThreadCounts(s: State, n: Name, c: Choice)
    requires CanStep(s, n)
    ensures StepCounted(s, n, StepThread(s, n, c))
  {
    match s.pc[n]
    case Pre | Msyncing | ShortcutFlag | ShortcutInsert => PreCounts(s, n, c);
    case Fetching | PostGet | Announcing | PostMigrate => DriverCounts(s, n, c);
    case SentWait | SentMark => SentCounts(s, n, c);
    case SentSuspendWait | SentSuspendRead | SentTransferWait | SentTransferTest | SentTransferring =>
      TransferCounts(s, n, c);
    case Delaying | DelayRead | DelayFull => ThrottleCounts(s, n, c);
    case Counting | MarkFlag | MarkInsert | CountReady => CycleCounts(s, n, c);
    case SuspendWait | SuspendTest | VMWait | VMTest => SuspendCounts(s, n, c);
    case Suspending | Flushing | Stopping | Finishing(_) => CallbackCounts(s, n, c);
  }

  lemma OneMoreCount(d: Status, counts: seq<nat>, count: nat)
    ensures Cycles(d, counts + [count]) == Cycle(Cycles(d, counts), count)
  {
    CyclesConcat(d, counts, [count]);
    assert Cycles(Cycle(Cycles(d, counts), count), []) == Cycle(Cycles(d, counts), count);
  }

  lemma CountsGrow(ss: seq<State>, acts: seq<Action>, n: Name, i: nat, d: Status)
    requires i < |acts| && i < |ss| && Has(ss[i], n)
    ensures var e := Cycles(d, CountsOf(ss, acts, n, i));
            Cycles(d, CountsOf(ss, acts, n, i + 1)) ==
            if Steps(acts[i], n) then Expected(OwnOf(ss[i], n), e) else e
  {
    var counts := CountsOf(ss, acts, n, i);
    OneMoreCount(d, counts, ss[i].store[n].listed);
    assert counts + [] == counts;
  }

  lemma NextOwn(ss: seq<State>, acts: seq<Action>, i: nat, n: Name, e: Status)
    requires Run(ss, acts) && i < |acts| && Has(ss[i], n) && CountsAs(n, OwnOf(ss[i], n), e)
    ensures Has(ss[i + 1], n)
    ensures CountsAs(n, OwnOf(ss[i + 1], n), if Steps(acts[i], n) then Expected(OwnOf(ss[i], n), e) else e)
  {
    RunStep(ss, acts, i);
    if Steps(acts[i], n) {
      ThreadCounts(ss[i], n, acts[i].choice);
      CountsOn(n, OwnOf(ss[i], n), OwnOf(ss[i + 1], n), e);
    } else {
      NextLeaves(ss, acts, i, n);
    }
  }

  lemma StartCounts(s: State, n: Name)
    requires Init(s) && Has(s, n)
    ensures FreshStatus(s.m.devices[n]) && CountsAs(n, OwnOf(s, n), s.m.devices[n])
  {
  }

  ghost predicate CountedTo(ss: seq<State>, acts: seq<Action>, i: nat, n: Name, d: Status) {
    i < |ss| && Has(ss[i], n) && CountsAs(n, OwnOf(ss[i], n), Cycles(d, CountsOf(ss, acts, n, i)))
  }

  lemma NextCounted(ss: seq<State>, acts: seq<Action>, i: nat, n: Name, d: Status)
    requires Run(ss, acts) && i < |acts| && CountedTo(ss, acts, i, n, d)
    ensures CountedTo(ss, acts, i + 1, n, d)
  {
    NextOwn(ss, acts, i, n, Cycles(d, CountsOf(ss, acts, n, i)));
    CountsGrow(ss, acts, n, i, d);
  }

  lemma RunCounts(ss: seq<State>, acts: seq<Action>, i: nat, n: Name, d: Status)
    requires Run(ss, acts) && i < |ss| && CountedTo(ss, acts, 0, n, d)
    ensures CountedTo(ss, acts, i, n, d)
  {
    ghost var counted: nat -> bool := (k: nat) => CountedTo(ss, acts, k, n, d);
    forall k: nat | k < i && counted(k) ensures counted(k + 1) {
      NextCounted(ss, acts, k, n, d);
    }
    UpTo(counted, i);
  }

  lemma CountsMean(n: Name, o: Own, d: Status, counts: seq<nat>)
    requires FreshStatus(d) && CountsAs(n, o, Cycles(d, counts))
    ensures o.d.totalCycles == |counts| && o.d.maxCycles == d.maxCycles
    ensures !TurnedOff(n, o.d) ==>
              (o.d.ready || o.pc.MarkFlag?
               <==> exists k: nat :: k < |counts| && Settles(d, counts, k))
  {
    ReadyExactlyWhen(d, counts);
    var from := CyclesCount(d, counts, |counts|);
    assert counts[..|counts|] == counts;
  }

  /** In every state of every run: unless `MaxCycles` turns memory off, a device is ready, or its thread is about to say
      so, exactly if one of the lists that it counted settles it. */
  lemma ReadyByItsCounts(ss: seq<State>, acts: seq<Action>, i: nat, n: Name)
    requires Run(ss, acts) && i < |ss| && Has(ss[0], n) && Has(ss[i], n)
    ensures var d, o, counts := ss[0].m.devices[n], OwnOf(ss[i], n), CountsOf(ss, acts, n, i);
            && o.d.totalCycles == |counts|
            && (!TurnedOff(n, o.d) ==>
                  (o.d.ready || o.pc.MarkFlag?
                   <==> exists k: nat :: k < |counts| && Settles(d, counts, k)))
  {
    var d := ss[0].m.devices[n];
    StartCounts(ss[0], n);
    assert CountedTo(ss, acts, 0, n, d);
    RunCounts(ss, acts, i, n, d);
    CountsMean(n, OwnOf(ss[i], n), d, CountsOf(ss, acts, n, i));
  }
}
