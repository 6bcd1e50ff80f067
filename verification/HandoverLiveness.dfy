/** The bound on cycles and the end of the dirty phase over every interleaving, not only round-robin passes: in a run
    without errors, each thread that takes enough steps makes its device ready, and once all are ready each thread
    that takes a few more ends its loop. */
module HandoverLiveness {
  import opened Handover
  import opened HandoverSystem
  import opened HandoverInvariants
  import opened HandoverTheorems
  import opened Chains
  import C = Convergence

  // ----- cycles -----

  /** Same counters and settings, and readiness is not taken back. */
  ghost predicate SameCounters(d: Status, e: Status) {
    && e.totalCycles == d.totalCycles && e.belowThreshold == d.belowThreshold
    && e.maxCycles == d.maxCycles && e.minCycles == d.minCycles && e.maxDirtyBlocks == d.maxDirtyBlocks
    && (d.ready ==> e.ready)
  }

  /** What a step does to its own device's counters. */
  ghost predicate CountEffect(s: State, t: State, n: Name)
    requires Has(s, n)
  {
    && n in t.pc && n in t.m.devices
    && var d, e := s.m.devices[n], t.m.devices[n];
       if s.pc[n].Counting? then
         && e == Counted(d, s.store[n].listed)
         && t.pc[n] == if CycleSettles(d, s.store[n].listed) then MarkFlag else CountReady
       else
         && SameCounters(d, e) && t.pc[n] != MarkFlag && (s.pc[n].MarkFlag? ==> e.ready)
  }

  lemma PreCounts(s: State, n: Name, c: Choice)
    requires CanStep(s, n) && (s.pc[n].Pre? || s.pc[n].Msyncing? || s.pc[n].ShortcutFlag? || s.pc[n].ShortcutInsert?)
    ensures CountEffect(s, StepThread(s, n, c), n)
  {
  }

  lemma DriverCounts(s: State, n: Name, c: Choice)
    requires CanStep(s, n) && (s.pc[n].Fetching? || s.pc[n].PostGet? || s.pc[n].Announcing? || s.pc[n].PostMigrate?)
    ensures CountEffect(s, StepThread(s, n, c), n)
  {
  }

  lemma SentCounts(s: State, n: Name, c: Choice)
    requires CanStep(s, n) && (s.pc[n].SentWait? || s.pc[n].SentMark?)
    ensures CountEffect(s, StepThread(s, n, c), n)
  {
  }

  lemma TransferCounts(s: State, n: Name, c: Choice)
    requires CanStep(s, n) && PastScan(s.pc[n])
    ensures CountEffect(s, StepThread(s, n, c), n)
  {
  }

  lemma ThrottleCounts(s: State, n: Name, c: Choice)
    requires CanStep(s, n) && (s.pc[n].Delaying? || s.pc[n].DelayRead? || s.pc[n].DelayFull?)
    ensures CountEffect(s, StepThread(s, n, c), n)
  {
  }

  lemma CycleCounts(s: State, n: Name, c: Choice)
    requires CanStep(s, n) && (s.pc[n].Counting? || s.pc[n].MarkFlag? || s.pc[n].MarkInsert? || s.pc[n].CountReady?)
    ensures CountEffect(s, StepThread(s, n, c), n)
  {
  }

  lemma SuspendCounts(s: State, n: Name, c: Choice)
    requires CanStep(s, n) && (s.pc[n].SuspendWait? || s.pc[n].SuspendTest? || s.pc[n].VMWait? || s.pc[n].VMTest?)
    ensures CountEffect(s, StepThread(s, n, c), n)
  {
  }

  lemma CallbackCounts(s: State, n: Name, c: Choice)
    requires CanStep(s, n) && (s.pc[n].Suspending? || s.pc[n].Flushing? || s.pc[n].Stopping? || s.pc[n].Finishing?)
    ensures CountEffect(s, StepThread(s, n, c), n)
  {
  }

  lemma ThreadCounts(s: State, n: Name, c: Choice)
    requires CanStep(s, n)
    ensures CountEffect(s, StepThread(s, n, c), n)
  {
    match s.pc[n]
    case Pre | Msyncing | ShortcutFlag | ShortcutInsert => PreCounts(s, n, c);
    case Fetching | PostGet | Announcing | PostMigrate => DriverCounts(s, n, c);
    case SentWait | SentMark => SentCounts(s, n, c);
    case SentSuspendWait | SentSuspendRead | SentTransferWait | SentTransferTest | SentTransferring =>
      TransferCounts(s, n, c);
    case Delaying | DelayRead | DelayFull => ThrottleCounts(s, n, c);
    case Counting | MarkFlag | MarkInsert | CountReady => CycleCounts(s, n, c);
    case SuspendWait | SuspendTest | VMWait | VMTest => SuspendCounts(s, n, c);
    case Suspending | Flushing | Stopping | Finishing(_) => CallbackCounts(s, n, c);
  }

  /** Between counting and the flag a device that has settled may have used up its bound. */
  ghost predicate CycleKept(s: State, n: Name) {
    && n in s.pc && n in s.m.devices
    && var d := s.m.devices[n];
       if s.pc[n].MarkFlag? then d.ready || 0 <= d.totalCycles <= C.Bound(d) else C.Unsettled(d)
  }

  lemma EffectKeepsCycle(s: State, t: State, n: Name)
    requires Has(s, n) && CycleKept(s, n) && CountEffect(s, t, n)
    ensures CycleKept(t, n) && C.Bound(t.m.devices[n]) == C.Bound(s.m.devices[n])
  {
    if s.pc[n].Counting? {
      C.CycleDescends(s.m.devices[n], s.store[n].listed);
    }
  }

  ghost predicate CyclesKept(s: State) {
    forall n | n in s.pc :: CycleKept(s, n)
  }

  /** A step by another thread, or of the guest or the copies, leaves a device's thread and status alone. */
  ghost predicate SameDevice(s: State, t: State, n: Name) {
    && n in s.pc && n in t.pc && t.pc[n] == s.pc[n]
    && n in s.m.devices && n in t.m.devices && t.m.devices[n] == s.m.devices[n]
  }

  lemma OthersSame(s: State, t: State, n: Name, k: Name)
    requires k != n && k in s.pc && k in s.m.devices && OwnEntries(s, t, n)
    ensures SameDevice(s, t, k)
  {
  }

  /** What every action does, seen from device `k`. */
  lemma ActionOnDevice(s: State, a: Action, k: Name)
    requires Inv(s) && Enabled(s, a) && k in s.pc && CycleKept(s, k)
    ensures var t := Do(s, a);
            && CycleKept(t, k)
            && (if a.Thread? && a.n == k then CountEffect(s, t, k) else SameDevice(s, t, k))
  {
    if a.Thread? {
      if a.n == k {
        ThreadCounts(s, k, a.choice);
        EffectKeepsCycle(s, StepThread(s, k, a.choice), k);
      } else {
        ThreadOwn(s, a.n, a.choice);
        OthersSame(s, StepThread(s, a.n, a.choice), a.n, k);
      }
    }
  }

  ghost predicate SameLoops(s: State, t: State) {
    t.pc.Keys == s.pc.Keys && t.m.devices.Keys == s.m.devices.Keys && s.m.readyKeys <= t.m.readyKeys
  }

  lemma OwnNames(s: State, t: State, n: Name)
    requires n in s.pc && n in s.m.devices && OwnEntries(s, t, n)
    ensures SameLoops(s, t)
  {
  }

  lemma ThreadOwn(s: State, n: Name, c: Choice)
    requires Inv(s) && CanStep(s, n)
    ensures Guarantee(s, StepThread(s, n, c), n)
  {
    ThreadKeepsControl(s, n, c);
  }

  lemma SameThreads(s: State, a: Action)
    requires Inv(s) && Enabled(s, a)
    ensures SameLoops(s, Do(s, a))
  {
    if a.Thread? {
      ThreadOwn(s, a.n, a.choice);
      OwnNames(s, StepThread(s, a.n, a.choice), a.n);
    }
  }

  lemma NextKeepsCycles(ss: seq<State>, acts: seq<Action>, i: nat)
    requires Run(ss, acts) && i < |acts| && CyclesKept(ss[i])
    ensures CyclesKept(ss[i + 1])
  {
    RunKeepsInv(ss, acts, i);
    RunStep(ss, acts, i);
    SameThreads(ss[i], acts[i]);
    var t := ss[i + 1];
    forall n | n in t.pc ensures CycleKept(t, n) {
      ActionOnDevice(ss[i], acts[i], n);
    }
  }

  lemma StartKeepsCycles(s: State)
    requires Init(s)
    ensures CyclesKept(s)
  {
  }

  lemma RunKeepsCycles(ss: seq<State>, acts: seq<Action>, i: nat)
    requires Run(ss, acts) && i < |ss|
    ensures CyclesKept(ss[i])
  {
    StartKeepsCycles(ss[0]);
    forall k | 0 <= k < |ss| - 1 && CyclesKept(ss[k]) ensures CyclesKept(ss[k + 1]) {
      NextKeepsCycles(ss, acts, k);
    }
    Stepwise(ss, (s: State) => CyclesKept(s), 0, i);
  }

  /** In every state of every run: a device that is not ready has cycles of its bound left, or has just counted its
      last one and is about to be flagged. */
  lemma CyclesWithinBound(ss: seq<State>, acts: seq<Action>, i: nat, n: Name)
    requires Run(ss, acts) && i < |ss| && n in ss[i].pc && n in ss[i].m.devices
    ensures var d := ss[i].m.devices[n];
            d.ready || d.totalCycles < C.Bound(d) || (d.totalCycles == C.Bound(d) && ss[i].pc[n] == MarkFlag)
  {
    RunKeepsCycles(ss, acts, i);
    assert CycleKept(ss[i], n);
  }

  // ----- runs without errors -----

  predicate ErrorFree(acts: seq<Action>) {
    forall k | 0 <= k < |acts| :: AllWell(acts[k])
  }

  /** Every callback works, and so does the driver. */
  predicate Fine(c: Choice) {
    c.out == C.ALL_WELL && !c.broken
  }

  predicate AllWell(a: Action) {
    a.Thread? ==> Fine(a.choice)
  }

  predicate WellAt(pc: PC) {
    !pc.Failed? && (pc.Finishing? ==> pc.error == NoError)
  }

  /** No thread has failed, and a completed suspend is one that worked. */
  ghost predicate Well(s: State) {
    (forall n | n in s.pc :: WellAt(s.pc[n])) && (s.m.suspendCompleted ==> s.m.vm.suspended)
  }

  ghost predicate WellEffect(s: State, t: State, n: Name) {
    && n in t.pc && WellAt(t.pc[n])
    && (t.m.suspendCompleted ==> s.m.suspendCompleted || (n in s.pc && s.pc[n].Finishing?))
  }

  lemma EarlyWell(s: State, n: Name, c: Choice)
    requires CanStep(s, n) && Fine(c) && !PastScan(s.pc[n]) && !InCycle(s.pc[n])
    ensures WellEffect(s, StepThread(s, n, c), n)
  {
  }

  lemma TransferWell(s: State, n: Name, c: Choice)
    requires CanStep(s, n) && Fine(c) && PastScan(s.pc[n])
    ensures WellEffect(s, StepThread(s, n, c), n)
  {
  }

  lemma CycleWell(s: State, n: Name, c: Choice)
    requires CanStep(s, n) && Fine(c) && InCycle(s.pc[n]) && !BeforeVM(s.pc[n]) && !s.pc[n].Finishing?
    ensures WellEffect(s, StepThread(s, n, c), n)
  {
  }

  lemma CallbackWell(s: State, n: Name, c: Choice)
    requires CanStep(s, n) && Fine(c) && WellAt(s.pc[n]) && (BeforeVM(s.pc[n]) || s.pc[n].Finishing?)
    ensures WellEffect(s, StepThread(s, n, c), n)
  {
  }

  lemma ThreadWell(s: State, n: Name, c: Choice)
    requires CanStep(s, n) && Fine(c) && WellAt(s.pc[n])
    ensures WellEffect(s, StepThread(s, n, c), n)
  {
    if PastScan(s.pc[n]) {
      TransferWell(s, n, c);
    } else if !InCycle(s.pc[n]) {
      EarlyWell(s, n, c);
    } else if BeforeVM(s.pc[n]) || s.pc[n].Finishing? {
      CallbackWell(s, n, c);
    } else {
      CycleWell(s, n, c);
    }
  }

  /** A thread that reports success does so with the machine suspended. */
  lemma ReportsTruly(s: State, n: Name)
    requires Inv(s) && n in s.pc && s.pc[n] == Finishing(NoError)
    ensures s.m.vm.suspended
  {
    assert ThreadKept(s, n);
  }

  lemma EffectKeepsWell(s: State, t: State, n: Name)
    requires Well(s) && n in s.pc && WellEffect(s, t, n) && Guarantee(s, t, n)
    requires s.pc[n].Finishing? ==> s.m.vm.suspended
    ensures Well(t)
  {
    forall k | k in t.pc ensures WellAt(t.pc[k]) {
      if k != n {
        assert k in s.pc && t.pc[k] == s.pc[k];
      }
    }
  }

  lemma ThreadKeepsWell(s: State, n: Name, c: Choice)
    requires Inv(s) && CanStep(s, n) && Fine(c) && Well(s)
    ensures Well(StepThread(s, n, c))
  {
    ThreadOwn(s, n, c);
    ThreadWell(s, n, c);
    if s.pc[n].Finishing? {
      ReportsTruly(s, n);
    }
    EffectKeepsWell(s, StepThread(s, n, c), n);
  }

  lemma NextKeepsWell(ss: seq<State>, acts: seq<Action>, i: nat)
    requires Run(ss, acts) && ErrorFree(acts) && i < |acts| && Well(ss[i])
    ensures Well(ss[i + 1])
  {
    RunKeepsInv(ss, acts, i);
    RunStep(ss, acts, i);
    assert AllWell(acts[i]);
    if acts[i].Thread? {
      ThreadKeepsWell(ss[i], acts[i].n, acts[i].choice);
    }
  }

  lemma RunKeepsWell(ss: seq<State>, acts: seq<Action>, i: nat)
    requires Run(ss, acts) && ErrorFree(acts) && i < |ss|
    ensures Well(ss[i])
  {
    assert Well(ss[0]);
    forall k | 0 <= k < |ss| - 1 && Well(ss[k]) ensures Well(ss[k + 1]) {
      NextKeepsWell(ss, acts, k);
    }
    Stepwise(ss, (s: State) => Well(s), 0, i);
  }

  // ----- how much a thread still has to do -----

  /** How many of the actions from `i` up to `j` are steps of thread `n`. */
  function Count(acts: seq<Action>, n: Name, i: nat, j: nat): nat
    requires i <= j <= |acts|
    decreases j
  {
    if i == j then 0 else Count(acts, n, i, j - 1) + if acts[j - 1].Thread? && acts[j - 1].n == n then 1 else 0
  }

  /** A potential that every own step lowers and no other action raises bounds the own steps. */
  lemma {:induction false} PotentialFalls(ss: seq<State>, acts: seq<Action>, n: Name, v: State -> int, i: nat, j: nat)
    requires |ss| == |acts| + 1 && i <= j <= |acts|
    requires forall k | i <= k < j :: v(ss[k + 1]) + (if acts[k].Thread? && acts[k].n == n then 1 else 0) <= v(ss[k])
    ensures v(ss[j]) + Count(acts, n, i, j) <= v(ss[i])
    decreases j
  {
    if i < j {
      PotentialFalls(ss, acts, n, v, i, j - 1);
      assert v(ss[j - 1 + 1]) + (if acts[j - 1].Thread? && acts[j - 1].n == n then 1 else 0) <= v(ss[j - 1]);
    }
  }

  // ----- until the device is ready -----

  /** Steps left before the next counted cycle; the round of a pass is cut after the count. */
  function Ahead(pc: PC): nat {
    match pc
    case MarkFlag => 24
    case MarkInsert => 23
    case CountReady => 22
    case Pre => 21
    case Msyncing | ShortcutFlag => 20
    case ShortcutInsert => 19
    case Fetching => 18
    case PostGet => 17
    case Announcing => 16
    case PostMigrate => 15
    case Delaying => 14
    case DelayRead => 13
    case DelayFull => 12
    case Counting => 11
    case _ => 0
  }

  /** Where the thread of an unready device can be. */
  ghost predicate Early(s: State, n: Name) {
    && Has(s, n) && WellAt(s.pc[n])
    && n !in s.m.readyKeys && |s.m.readyKeys| != |s.m.devices|
    && !s.m.vm.suspended && !s.m.devices[n].suspendedAtPre
    && (s.m.devices[n].ready ==> Inserting(s.pc[n]))
    && (Inserting(s.pc[n]) || Ahead(s.pc[n]) > 0)
  }

  lemma EarlyFrom(s: State, n: Name)
    requires Has(s, n) && SharedKept(s) && ThreadKept(s, n) && WellAt(s.pc[n])
    requires n !in s.m.readyKeys && |s.m.readyKeys| != |s.m.devices| && !AllReady(s.m.devices, s.m.readyKeys)
    ensures Early(s, n)
  {
  }

  lemma InvParts(s: State, n: Name)
    requires Inv(s) && n in s.pc
    ensures Has(s, n) && SharedKept(s) && ThreadKept(s, n) && s.m.readyKeys <= s.m.devices.Keys
  {
  }

  lemma UnreadyIsEarly(s: State, n: Name)
    requires Inv(s) && Well(s) && n in s.pc && n !in s.m.readyKeys
    ensures Early(s, n)
  {
    InvParts(s, n);
    CountMeansAll(s.m.devices, s.m.readyKeys);
    EarlyFrom(s, n);
  }

  ghost predicate Nearer(s: State, t: State, n: Name) {
    && n in s.pc && n in t.pc
    && (n in t.m.readyKeys || s.pc[n].Counting? || Ahead(t.pc[n]) < Ahead(s.pc[n]))
  }

  lemma PreNearer(s: State, n: Name, c: Choice)
    requires CanStep(s, n) && Early(s, n) && Fine(c)
    requires s.pc[n].Pre? || s.pc[n].Msyncing? || s.pc[n].ShortcutFlag? || s.pc[n].ShortcutInsert?
    ensures Nearer(s, StepThread(s, n, c), n)
  {
  }

  lemma DriverNearer(s: State, n: Name, c: Choice)
    requires CanStep(s, n) && Early(s, n) && Fine(c)
    requires s.pc[n].Fetching? || s.pc[n].PostGet? || s.pc[n].Announcing? || s.pc[n].PostMigrate?
    ensures Nearer(s, StepThread(s, n, c), n)
  {
  }

  lemma ThrottleNearer(s: State, n: Name, c: Choice)
    requires CanStep(s, n) && Early(s, n) && Fine(c)
    requires s.pc[n].Delaying? || s.pc[n].DelayRead? || s.pc[n].DelayFull?
    ensures Nearer(s, StepThread(s, n, c), n)
  {
  }

  lemma CycleNearer(s: State, n: Name, c: Choice)
    requires CanStep(s, n) && Early(s, n) && Fine(c)
    requires s.pc[n].Counting? || s.pc[n].MarkFlag? || s.pc[n].MarkInsert? || s.pc[n].CountReady?
    ensures Nearer(s, StepThread(s, n, c), n)
  {
  }

  lemma EarlyNearer(s: State, n: Name, c: Choice)
    requires CanStep(s, n) && Early(s, n) && Fine(c)
    ensures Nearer(s, StepThread(s, n, c), n)
  {
    match s.pc[n]
    case Pre | Msyncing | ShortcutFlag | ShortcutInsert => PreNearer(s, n, c);
    case Fetching | PostGet | Announcing | PostMigrate => DriverNearer(s, n, c);
    case Delaying | DelayRead | DelayFull => ThrottleNearer(s, n, c);
    case Counting | MarkFlag | MarkInsert | CountReady => CycleNearer(s, n, c);
  }

  /** Steps before the device is in the map of ready devices: what is left of its bound, a pass for each cycle. */
  ghost function ToReady(s: State, n: Name): int {
    if n in s.pc && n in s.m.devices && n !in s.m.readyKeys then 25 * C.Rank(s.m.devices[n]) + Ahead(s.pc[n]) + 1 else 0
  }

  lemma RankIsPositive(s: State, n: Name)
    requires CycleKept(s, n)
    ensures C.Rank(s.m.devices[n]) >= 0
  {
    if !s.pc[n].MarkFlag? {
      C.CycleDescends(s.m.devices[n], 0);
    }
  }

  lemma EffectLowersRank(s: State, t: State, n: Name)
    requires Has(s, n) && CycleKept(s, n) && CountEffect(s, t, n)
    ensures C.Rank(t.m.devices[n]) <= C.Rank(s.m.devices[n])
    ensures s.pc[n].Counting? && !s.m.devices[n].ready ==> C.Rank(t.m.devices[n]) < C.Rank(s.m.devices[n])
    ensures Ahead(t.pc[n]) <= 24
  {
    RankIsPositive(s, n);
  }

  lemma OwnLowersToReady(s: State, t: State, n: Name)
    requires Early(s, n) && CycleKept(s, n) && CountEffect(s, t, n) && Nearer(s, t, n) && CycleKept(t, n)
    ensures ToReady(t, n) < ToReady(s, n)
  {
    EffectLowersRank(s, t, n);
    RankIsPositive(s, n);
  }

  lemma ActionLowersToReady(s: State, a: Action, n: Name)
    requires Inv(s) && Well(s) && Enabled(s, a) && AllWell(a) && n in s.pc && CycleKept(s, n)
    requires n !in s.m.readyKeys
    ensures ToReady(Do(s, a), n) + (if a.Thread? && a.n == n then 1 else 0) <= ToReady(s, n)
  {
    UnreadyIsEarly(s, n);
    ActionOnDevice(s, a, n);
    SameThreads(s, a);
    if a.Thread? && a.n == n {
      EarlyNearer(s, n, a.choice);
      OwnLowersToReady(s, Do(s, a), n);
    } else {
      RankIsPositive(s, n);
    }
  }

  // ----- until the loop has ended -----

  /** Steps left in this pass, at most. */
  function Left(pc: PC): nat {
    match pc
    case Pre => 30
    case Msyncing | ShortcutFlag => 29
    case ShortcutInsert => 28
    case Fetching => 27
    case PostGet => 26
    case Announcing => 25
    case PostMigrate => 24
    case Delaying => 23
    case DelayRead => 22
    case DelayFull => 21
    case Counting => 20
    case MarkFlag => 19
    case MarkInsert => 18
    case CountReady => 17
    case SuspendWait => 16
    case SuspendTest => 15
    case VMWait => 14
    case VMTest => 13
    case Suspending => 12
    case Flushing => 11
    case Stopping => 10
    case Finishing(_) => 9
    case SentWait => 8
    case SentMark => 7
    case SentSuspendWait => 6
    case SentSuspendRead => 5
    case SentTransferWait => 4
    case SentTransferTest => 3
    case SentTransferring => 2
    case Ended | Failed => 0
  }

  /** Steps before the loop ends once all devices are ready: this pass and, if it is not a suspended one, the next. */
  ghost function ToEnd(s: State, n: Name): int {
    if n !in s.pc || n !in s.m.devices || Finished(s.pc[n]) then 0
    else
      Left(s.pc[n]) +
      if (if s.pc[n].Pre? then s.m.vm.suspended else s.m.devices[n].suspendedAtPre) then 0 else 32
  }

  /** Where a thread is once all devices are ready. */
  ghost predicate Late(s: State, n: Name) {
    && Has(s, n) && WellAt(s.pc[n]) && (s.m.suspendCompleted ==> s.m.vm.suspended)
    && n in s.m.readyKeys && |s.m.readyKeys| == |s.m.devices|
    && (s.pc[n].Finishing? ==> s.m.vm.suspended)
    && (BeforeVM(s.pc[n]) ==> !s.m.vm.suspended)
    && (InCycle(s.pc[n]) || s.pc[n].Pre? ==> !s.m.devices[n].suspendedAtPre)
  }

  lemma ReadyIsLate(s: State, n: Name)
    requires Inv(s) && Well(s) && n in s.pc && AllReady(s.m.devices, s.m.readyKeys)
    ensures Late(s, n)
  {
    InvParts(s, n);
    CountMeansAll(s.m.devices, s.m.readyKeys);
  }

  /** The step ends the loop, or goes down the pass, or starts the next one with the machine suspended. */
  ghost predicate Sinks(s: State, t: State, n: Name)
    requires Has(s, n)
  {
    && n in t.pc && n in t.m.devices
    && (|| Finished(t.pc[n])
        || (t.pc[n].Pre? && t.m.vm.suspended && !s.pc[n].Pre? && !s.m.devices[n].suspendedAtPre)
        || (!t.pc[n].Pre? && Left(t.pc[n]) < Left(s.pc[n]) &&
            t.m.devices[n].suspendedAtPre == if s.pc[n].Pre? then s.m.vm.suspended else s.m.devices[n].suspendedAtPre))
  }

  lemma SinkingLowers(s: State, t: State, n: Name)
    requires Has(s, n) && !Finished(s.pc[n]) && Sinks(s, t, n)
    ensures ToEnd(t, n) < ToEnd(s, n)
  {
  }

  lemma PreSinks(s: State, n: Name, c: Choice)
    requires Late(s, n) && Fine(c)
    requires s.pc[n].Pre? || s.pc[n].Msyncing? || s.pc[n].ShortcutFlag? || s.pc[n].ShortcutInsert?
    ensures Sinks(s, StepPre(s, n, c), n)
  {
  }

  lemma DriverSinks(s: State, n: Name, c: Choice)
    requires Has(s, n) && Fine(c)
    requires s.pc[n].Fetching? || s.pc[n].PostGet? || s.pc[n].Announcing? || s.pc[n].PostMigrate?
    ensures Sinks(s, StepDriver(s, n, c), n)
  {
  }

  lemma SentSinks(s: State, n: Name, c: Choice)
    requires Has(s, n) && Fine(c)
    requires s.pc[n].SentWait? || s.pc[n].SentMark?
    ensures Sinks(s, StepSent(s, n, c), n)
  {
  }

  lemma AskSinks(s: State, n: Name, c: Choice)
    requires Has(s, n) && Fine(c)
    requires s.pc[n].SentSuspendWait? || s.pc[n].SentSuspendRead?
    ensures Sinks(s, StepTransfer(s, n, c), n)
  {
  }

  lemma TransferSinks(s: State, n: Name, c: Choice)
    requires Has(s, n) && Fine(c)
    requires s.pc[n].SentTransferWait? || s.pc[n].SentTransferTest? || s.pc[n].SentTransferring?
    ensures Sinks(s, StepTransfer(s, n, c), n)
  {
  }

  lemma ThrottleSinks(s: State, n: Name, c: Choice)
    requires Has(s, n) && Fine(c)
    requires s.pc[n].Delaying? || s.pc[n].DelayRead? || s.pc[n].DelayFull?
    ensures Sinks(s, StepThrottle(s, n, c), n)
  {
  }

  lemma CountSinks(s: State, n: Name, c: Choice)
    requires Late(s, n) && Fine(c)
    requires s.pc[n].Counting? || s.pc[n].CountReady?
    ensures Sinks(s, StepCycle(s, n, c), n)
  {
  }

  lemma MarkSinks(s: State, n: Name, c: Choice)
    requires Has(s, n) && Fine(c)
    requires s.pc[n].MarkFlag? || s.pc[n].MarkInsert?
    ensures Sinks(s, StepCycle(s, n, c), n)
  {
  }

  lemma SuspendSinks(s: State, n: Name, c: Choice)
    requires Late(s, n) && Fine(c)
    requires s.pc[n].SuspendWait? || s.pc[n].SuspendTest?
    ensures Sinks(s, StepSuspend(s, n, c), n)
  {
  }

  lemma VMSinks(s: State, n: Name, c: Choice)
    requires Has(s, n) && Fine(c)
    requires s.pc[n].VMWait? || s.pc[n].VMTest?
    ensures Sinks(s, StepSuspend(s, n, c), n)
  {
  }

  lemma AttemptSinks(s: State, n: Name, c: Choice)
    requires Has(s, n) && Fine(c)
    requires s.pc[n].Suspending? || s.pc[n].Flushing?
    ensures Sinks(s, StepCallback(s, n, c), n)
  {
  }

  lemma AfterSinks(s: State, n: Name, c: Choice)
    requires Late(s, n) && Fine(c)
    requires s.pc[n].Stopping? || s.pc[n].Finishing?
    ensures Sinks(s, StepCallback(s, n, c), n)
  {
  }

  lemma LateSinks(s: State, n: Name, c: Choice)
    requires CanStep(s, n) && Late(s, n) && Fine(c)
    ensures Sinks(s, StepThread(s, n, c), n)
  {
    match s.pc[n]
    case Pre | Msyncing | ShortcutFlag | ShortcutInsert => PreSinks(s, n, c);
    case Fetching | PostGet | Announcing | PostMigrate => DriverSinks(s, n, c);
    case SentWait | SentMark => SentSinks(s, n, c);
    case SentSuspendWait | SentSuspendRead => AskSinks(s, n, c);
    case SentTransferWait | SentTransferTest | SentTransferring => TransferSinks(s, n, c);
    case Delaying | DelayRead | DelayFull => ThrottleSinks(s, n, c);
    case Counting | CountReady => CountSinks(s, n, c);
    case MarkFlag | MarkInsert => MarkSinks(s, n, c);
    case SuspendWait | SuspendTest => SuspendSinks(s, n, c);
    case VMWait | VMTest => VMSinks(s, n, c);
    case Suspending | Flushing => AttemptSinks(s, n, c);
    case Stopping | Finishing(_) => AfterSinks(s, n, c);
  }

  lemma StaysSuspended(s: State, a: Action)
    requires Inv(s) && Enabled(s, a) && s.m.vm.suspended
    ensures Do(s, a).m.vm.suspended
  {
    if a.Thread? {
      ThreadOwn(s, a.n, a.choice);
    }
  }

  lemma ActionLowersToEnd(s: State, a: Action, n: Name)
    requires Inv(s) && Well(s) && Enabled(s, a) && AllWell(a) && n in s.pc && CycleKept(s, n)
    requires AllReady(s.m.devices, s.m.readyKeys)
    ensures ToEnd(Do(s, a), n) + (if a.Thread? && a.n == n then 1 else 0) <= ToEnd(s, n)
  {
    if a.Thread? && a.n == n {
      ReadyIsLate(s, n);
      LateSinks(s, n, a.choice);
      SinkingLowers(s, Do(s, a), n);
    } else {
      ActionOnDevice(s, a, n);
      if s.m.vm.suspended {
        StaysSuspended(s, a);
      }
    }
  }

  // ----- fair runs -----

  lemma StaysReady(ss: seq<State>, acts: seq<Action>, n: Name, i: nat, j: nat)
    requires Run(ss, acts) && i <= j < |ss| && n in ss[i].m.readyKeys
    ensures n in ss[j].m.readyKeys
  {
    forall k | i <= k < |ss| - 1 && n in ss[k].m.readyKeys ensures n in ss[k + 1].m.readyKeys {
      RunKeepsInv(ss, acts, k);
      RunStep(ss, acts, k);
      SameThreads(ss[k], acts[k]);
    }
    Stepwise(ss, (s: State) => n in s.m.readyKeys, i, j);
  }

  lemma SameThreadsInRun(ss: seq<State>, acts: seq<Action>, i: nat)
    requires Run(ss, acts) && i < |ss|
    ensures ss[i].pc.Keys == ss[i].m.devices.Keys == ss[0].pc.Keys
  {
    forall k | 0 <= k < |ss| - 1 && ss[k].pc.Keys == ss[0].pc.Keys ensures ss[k + 1].pc.Keys == ss[0].pc.Keys {
      RunKeepsInv(ss, acts, k);
      RunStep(ss, acts, k);
      SameThreads(ss[k], acts[k]);
    }
    Stepwise(ss, (s: State) => s.pc.Keys == ss[0].pc.Keys, 0, i);
    RunKeepsInv(ss, acts, i);
  }

  lemma NextLowersToReady(ss: seq<State>, acts: seq<Action>, n: Name, k: nat)
    requires Run(ss, acts) && ErrorFree(acts) && k < |acts| && n in ss[0].pc && n !in ss[k].m.readyKeys
    ensures ToReady(ss[k + 1], n) + (if acts[k].Thread? && acts[k].n == n then 1 else 0) <= ToReady(ss[k], n)
  {
    RunKeepsInv(ss, acts, k);
    RunKeepsWell(ss, acts, k);
    RunKeepsCycles(ss, acts, k);
    SameThreadsInRun(ss, acts, k);
    RunStep(ss, acts, k);
    assert AllWell(acts[k]);
    ActionLowersToReady(ss[k], acts[k], n);
  }

  /** A thread that takes 25 steps for each cycle of its bound, and 25 more, has made its device ready. */
  lemma ReadyAfterSteps(ss: seq<State>, acts: seq<Action>, n: Name, i: nat)
    requires Run(ss, acts) && ErrorFree(acts) && i <= |acts| && n in ss[0].pc && n in ss[0].m.devices
    requires Count(acts, n, 0, i) >= 25 * (C.Bound(ss[0].m.devices[n]) + 1)
    ensures n in ss[i].m.readyKeys
  {
    if n !in ss[i].m.readyKeys {
      forall k: nat | k <= i ensures n !in ss[k].m.readyKeys {
        if n in ss[k].m.readyKeys {
          StaysReady(ss, acts, n, k, i);
        }
      }
      forall k: nat | 0 <= k < i
        ensures ToReady(ss[k + 1], n) + (if acts[k].Thread? && acts[k].n == n then 1 else 0) <= ToReady(ss[k], n)
      {
        NextLowersToReady(ss, acts, n, k);
      }
      PotentialFalls(ss, acts, n, (s: State) => ToReady(s, n), 0, i);
      StillToGo(ss, acts, n, i);
    }
  }

  lemma StillToGo(ss: seq<State>, acts: seq<Action>, n: Name, i: nat)
    requires Run(ss, acts) && i < |ss| && n in ss[0].pc && n in ss[0].m.devices && n !in ss[i].m.readyKeys
    ensures ToReady(ss[i], n) > 0 && ToReady(ss[0], n) <= 25 * C.Bound(ss[0].m.devices[n]) + 22
  {
    RunKeepsCycles(ss, acts, i);
    SameThreadsInRun(ss, acts, i);
    RankIsPositive(ss[i], n);
  }

  lemma NextLowersToEnd(ss: seq<State>, acts: seq<Action>, n: Name, k: nat)
    requires Run(ss, acts) && ErrorFree(acts) && k < |acts| && n in ss[0].pc
    requires AllReady(ss[k].m.devices, ss[k].m.readyKeys)
    ensures ToEnd(ss[k + 1], n) + (if acts[k].Thread? && acts[k].n == n then 1 else 0) <= ToEnd(ss[k], n)
  {
    RunKeepsInv(ss, acts, k);
    RunKeepsWell(ss, acts, k);
    RunKeepsCycles(ss, acts, k);
    SameThreadsInRun(ss, acts, k);
    RunStep(ss, acts, k);
    assert AllWell(acts[k]);
    ActionLowersToEnd(ss[k], acts[k], n);
  }

  lemma AllStayReady(ss: seq<State>, acts: seq<Action>, i: nat, j: nat)
    requires Run(ss, acts) && i <= j < |ss| && AllReady(ss[i].m.devices, ss[i].m.readyKeys)
    ensures AllReady(ss[j].m.devices, ss[j].m.readyKeys)
  {
    SameThreadsInRun(ss, acts, i);
    SameThreadsInRun(ss, acts, j);
    forall n | n in ss[j].m.devices ensures n in ss[j].m.readyKeys {
      assert n in ss[i].m.devices;
      StaysReady(ss, acts, n, i, j);
    }
  }

  /** Once all devices are ready, a thread that takes 62 steps has ended its loop. */
  lemma EndedAfterSteps(ss: seq<State>, acts: seq<Action>, n: Name, i: nat, j: nat)
    requires Run(ss, acts) && ErrorFree(acts) && i <= j <= |acts| && n in ss[0].pc
    requires AllReady(ss[i].m.devices, ss[i].m.readyKeys) && Count(acts, n, i, j) >= 62
    ensures n in ss[j].pc && Finished(ss[j].pc[n])
  {
    var v := (s: State) => ToEnd(s, n);
    forall k: nat | i <= k < j
      ensures v(ss[k + 1]) + (if acts[k].Thread? && acts[k].n == n then 1 else 0) <= v(ss[k])
    {
      AllStayReady(ss, acts, i, k);
      NextLowersToEnd(ss, acts, n, k);
    }
    PotentialFalls(ss, acts, n, v, i, j);
    SameThreadsInRun(ss, acts, j);
    EndIsNear(ss[i], n);
    EndIsHere(ss[j], n);
  }

  lemma EndIsNear(s: State, n: Name)
    ensures ToEnd(s, n) <= 62
  {
  }

  lemma EndIsHere(s: State, n: Name)
    requires n in s.pc && n in s.m.devices && ToEnd(s, n) <= 0
    ensures Finished(s.pc[n])
  {
  }

  lemma EndedIsReady(s: State, n: Name)
    requires Inv(s) && Well(s) && n in s.pc && Finished(s.pc[n])
    ensures s.pc[n] == Ended && n in s.m.readyKeys
  {
    InvParts(s, n);
  }

  /** The dirty phase ends in every fair run without errors. If each thread has ended or taken 25 steps for each cycle
      of its bound, and 25 more, and after that has ended or taken 62 more, then every loop has ended and authority has
      passed exactly once. */
  lemma FairRunsEnd(ss: seq<State>, acts: seq<Action>, i: nat, j: nat)
    requires Run(ss, acts) && ErrorFree(acts) && i <= j <= |acts|
    requires forall n | n in ss[0].pc && n in ss[0].m.devices ::
               || (n in ss[i].pc && Finished(ss[i].pc[n]))
               || Count(acts, n, 0, i) >= 25 * (C.Bound(ss[0].m.devices[n]) + 1)
    requires forall n | n in ss[0].pc :: (n in ss[j].pc && Finished(ss[j].pc[n])) || Count(acts, n, i, j) >= 62
    ensures (forall n | n in ss[j].pc :: ss[j].pc[n] == Ended) && ss[j].m.transfers == 1
  {
    AllReadyBy(ss, acts, i);
    SameThreadsInRun(ss, acts, j);
    forall n | n in ss[j].pc ensures ss[j].pc[n] == Ended {
      if !Finished(ss[j].pc[n]) {
        EndedAfterSteps(ss, acts, n, i, j);
      }
      RunKeepsInv(ss, acts, j);
      RunKeepsWell(ss, acts, j);
      EndedIsReady(ss[j], n);
    }
    AuthorityExactlyOnce(ss, acts, j);
  }

  lemma AllReadyBy(ss: seq<State>, acts: seq<Action>, i: nat)
    requires Run(ss, acts) && ErrorFree(acts) && i <= |acts|
    requires forall n | n in ss[0].pc && n in ss[0].m.devices ::
               || (n in ss[i].pc && Finished(ss[i].pc[n]))
               || Count(acts, n, 0, i) >= 25 * (C.Bound(ss[0].m.devices[n]) + 1)
    ensures AllReady(ss[i].m.devices, ss[i].m.readyKeys)
  {
    SameThreadsInRun(ss, acts, 0);
    SameThreadsInRun(ss, acts, i);
    forall n | n in ss[i].m.devices ensures n in ss[i].m.readyKeys {
      assert n in ss[0].pc;
      if Finished(ss[i].pc[n]) {
        RunKeepsInv(ss, acts, i);
        RunKeepsWell(ss, acts, i);
        EndedIsReady(ss[i], n);
      } else {
        ReadyAfterSteps(ss, acts, n, i);
      }
    }
  }

  // ----- after a failed suspend -----

  /** The suspend counts as completed, but the machine was not suspended. */
  predicate SuspendFailed(s: State) {
    s.m.suspendCompleted && !s.m.vm.suspended
  }

  /** The thread's loop goes on, and only memory's thread calls msync before its fetch. */
  predicate GoesOn(s: State, n: Name) {
    n in s.pc && !Finished(s.pc[n]) && (s.pc[n].Msyncing? ==> n == MEMORY)
  }

  /** No error of the driver on this device, and of the msync only if the device is not memory. */
  predicate Untroubled(c: Choice, n: Name) {
    !c.broken && (n == MEMORY ==> c.out.msyncOk)
  }

  /** Where a thread can be once the suspend has failed. */
  lemma FailedPlaces(s: State, n: Name)
    requires Inv(s) && SuspendFailed(s) && n in s.pc
    ensures Has(s, n) && !s.m.devices[n].suspendedAtPre
    ensures !InSuspendedPass(s.pc[n]) && !BeforeVM(s.pc[n]) && !s.pc[n].Finishing?
  {
    assert ThreadKept(s, n);
  }

  lemma EarlyGoesOn(s: State, n: Name, c: Choice)
    requires Has(s, n) && GoesOn(s, n) && Untroubled(c, n) && !s.m.devices[n].suspendedAtPre
    requires !InSuspendedPass(s.pc[n]) && !InCycle(s.pc[n])
    ensures GoesOn(StepThread(s, n, c), n)
  {
  }

  lemma CycleGoesOn(s: State, n: Name, c: Choice)
    requires Has(s, n) && InCycle(s.pc[n]) && !BeforeVM(s.pc[n]) && !s.pc[n].Finishing?
    ensures GoesOn(StepThread(s, n, c), n)
  {
  }

  lemma OwnGoesOn(s: State, n: Name, c: Choice)
    requires Inv(s) && SuspendFailed(s) && GoesOn(s, n) && Untroubled(c, n)
    ensures GoesOn(StepThread(s, n, c), n)
  {
    FailedPlaces(s, n);
    if InCycle(s.pc[n]) {
      CycleGoesOn(s, n, c);
    } else {
      EarlyGoesOn(s, n, c);
    }
  }

  lemma ActionGoesOn(s: State, a: Action, n: Name)
    requires Inv(s) && Enabled(s, a) && SuspendFailed(s) && GoesOn(s, n)
    requires a.Thread? && a.n == n ==> Untroubled(a.choice, n)
    ensures GoesOn(Do(s, a), n)
  {
    if a.Thread? {
      if a.n == n {
        OwnGoesOn(s, n, a.choice);
      } else {
        ThreadOwn(s, a.n, a.choice);
        OthersGoOn(s, StepThread(s, a.n, a.choice), a.n, n);
      }
    }
  }

  lemma OthersGoOn(s: State, t: State, k: Name, n: Name)
    requires GoesOn(s, n) && k != n && OwnEntries(s, t, k)
    ensures GoesOn(t, n)
  {
  }

  /** Only memory's thread is ever at its msync. */
  ghost predicate MsyncsMemory(s: State) {
    forall n | n in s.pc && s.pc[n].Msyncing? :: n == MEMORY
  }

  lemma StepToMsync(s: State, n: Name, c: Choice)
    requires Has(s, n) && !Finished(s.pc[n])
    ensures n in StepThread(s, n, c).pc && (StepThread(s, n, c).pc[n].Msyncing? ==> n == MEMORY)
  {
    if s.pc[n].Pre? || s.pc[n].Msyncing? || s.pc[n].ShortcutFlag? || s.pc[n].ShortcutInsert? {
      assert StepThread(s, n, c) == StepPre(s, n, c);
    }
  }

  lemma OwnMsyncsMemory(s: State, t: State, n: Name)
    requires MsyncsMemory(s) && OwnEntries(s, t, n) && (t.pc[n].Msyncing? ==> n == MEMORY)
    ensures MsyncsMemory(t)
  {
  }

  lemma NextMsyncsMemory(ss: seq<State>, acts: seq<Action>, k: nat)
    requires Run(ss, acts) && k < |acts| && MsyncsMemory(ss[k])
    ensures MsyncsMemory(ss[k + 1])
  {
    RunKeepsInv(ss, acts, k);
    RunStep(ss, acts, k);
    if acts[k].Thread? {
      ThreadOwn(ss[k], acts[k].n, acts[k].choice);
      StepToMsync(ss[k], acts[k].n, acts[k].choice);
      OwnMsyncsMemory(ss[k], StepThread(ss[k], acts[k].n, acts[k].choice), acts[k].n);
    }
  }

  lemma RunMsyncsMemory(ss: seq<State>, acts: seq<Action>, k: nat)
    requires Run(ss, acts) && k < |ss|
    ensures MsyncsMemory(ss[k])
  {
    assert MsyncsMemory(ss[0]);
    forall i | 0 <= i < |ss| - 1 && MsyncsMemory(ss[i]) ensures MsyncsMemory(ss[i + 1]) {
      NextMsyncsMemory(ss, acts, i);
    }
    Stepwise(ss, (s: State) => MsyncsMemory(s), 0, k);
  }

  lemma StillFailed(ss: seq<State>, acts: seq<Action>, i: nat, k: nat)
    requires Run(ss, acts) && i <= k < |ss| && SuspendFailed(ss[i])
    ensures SuspendFailed(ss[k])
  {
    RunIsLater(ss, acts, i, k);
  }

  predicate UntroubledFrom(acts: seq<Action>, i: nat, j: nat, n: Name)
    requires j <= |acts|
  {
    forall k | i <= k < j && acts[k].Thread? && acts[k].n == n :: Untroubled(acts[k].choice, n)
  }

  lemma NextGoesOn(ss: seq<State>, acts: seq<Action>, i: nat, k: nat, n: Name)
    requires Run(ss, acts) && i <= k < |acts| && SuspendFailed(ss[i]) && GoesOn(ss[k], n)
    requires acts[k].Thread? && acts[k].n == n ==> Untroubled(acts[k].choice, n)
    ensures GoesOn(ss[k + 1], n)
  {
    StillFailed(ss, acts, i, k);
    RunKeepsInv(ss, acts, k);
    RunStep(ss, acts, k);
    ActionGoesOn(ss[k], acts[k], n);
  }

  /** The other half: once a suspend has failed no loop ends any more. A loop goes on until it has an error of its own,
      of the driver or of memory's msync. */
  lemma FailedSuspendNeverEnds(ss: seq<State>, acts: seq<Action>, i: nat, j: nat, n: Name)
    requires Run(ss, acts) && i <= j < |ss| && SuspendFailed(ss[i]) && n in ss[i].pc && n in ss[j].pc
    ensures ss[j].pc[n] != Ended
    ensures !Finished(ss[i].pc[n]) && UntroubledFrom(acts, i, j, n) ==> !Finished(ss[j].pc[n])
  {
    StillFailed(ss, acts, i, j);
    RunKeepsInv(ss, acts, j);
    FailedPlaces(ss[j], n);
    if !Finished(ss[i].pc[n]) && UntroubledFrom(acts, i, j, n) {
      LoopGoesOn(ss, acts, i, j, n);
    }
  }

  lemma LoopGoesOn(ss: seq<State>, acts: seq<Action>, i: nat, j: nat, n: Name)
    requires Run(ss, acts) && i <= j < |ss| && SuspendFailed(ss[i]) && n in ss[i].pc
    requires !Finished(ss[i].pc[n]) && UntroubledFrom(acts, i, j, n)
    ensures GoesOn(ss[j], n)
  {
    RunMsyncsMemory(ss, acts, i);
    var front := ss[..j + 1];
    forall k | i <= k < |front| - 1 && GoesOn(front[k], n) ensures GoesOn(front[k + 1], n) {
      NextGoesOn(ss, acts, i, k, n);
    }
    Stepwise(front, (s: State) => GoesOn(s, n), i, j);
  }
}
