/** One migration for as long as anybody remembers it. MigrateTo returns when a loop has failed or all have ended
    (migrations.go:537-544), but the other loops go on, and the user may resume the machine under them. Nothing here
    depends on whether the machine runs, or on what the stores hold. */
module Migration {
  import opened Handover
  import opened HandoverSystem
  import opened HandoverInvariants
  import opened HandoverTheorems

  /** The machine runs or not, and every migration of it sees the same. */
  function Seen(s: State, up: bool): State {
    s.(running := up)
  }

  function Halted(s: State): State {
    Seen(s, false)
  }

  /** The control invariant apart from what it says about the machine. */
  ghost predicate Sound(s: State) {
    Control(Halted(s)) && WellFormed(s)
  }

  predicate LoopsDone(s: State) {
    forall n | n in s.pc :: Finished(s.pc[n])
  }

  /** MigrateTo can have returned. */
  predicate Over(s: State) {
    LoopsDone(s) || exists n | n in s.pc :: s.pc[n].Failed?
  }

  function Calling(s: State): set<Name> {
    set n | n in s.pc && s.pc[n].SentTransferring?
  }

  /** The authority events that have left the source: those of finished calls and of calls under way. */
  function Sends(s: State): nat {
    s.m.transfers + |Calling(s)|
  }

  // ----- no step of a thread looks at the machine -----

  lemma PassBlind(s: State, n: Name, c: Choice)
    requires Has(s, n)
    ensures StepPre(Halted(s), n, c) == Halted(StepPre(s, n, c))
    ensures StepDriver(Halted(s), n, c) == Halted(StepDriver(s, n, c))
  {
  }

  lemma CycleBlind(s: State, n: Name, c: Choice)
    requires Has(s, n)
    ensures StepThrottle(Halted(s), n, c) == Halted(StepThrottle(s, n, c))
    ensures StepCycle(Halted(s), n, c) == Halted(StepCycle(s, n, c))
  {
  }

  lemma SentBlind(s: State, n: Name, c: Choice)
    requires Has(s, n)
    ensures StepSent(Halted(s), n, c) == Halted(StepSent(s, n, c))
    ensures StepTransfer(Halted(s), n, c) == Halted(StepTransfer(s, n, c))
  {
  }

  lemma SuspendBlind(s: State, n: Name, c: Choice)
    requires Has(s, n)
    ensures StepSuspend(Halted(s), n, c) == Halted(StepSuspend(s, n, c))
  {
  }

  lemma CallbackBlind(s: State, n: Name, c: Choice)
    requires Has(s, n)
    ensures StepCallback(Halted(s), n, c) == Halted(StepCallback(s, n, c))
  {
  }

  lemma ThreadBlind(s: State, n: Name, c: Choice)
    requires Has(s, n)
    ensures StepThread(Halted(s), n, c) == Halted(StepThread(s, n, c))
  {
    PassBlind(s, n, c);
    CycleBlind(s, n, c);
    SentBlind(s, n, c);
    SuspendBlind(s, n, c);
    CallbackBlind(s, n, c);
  }

  // ----- every action keeps a migration sound -----

  lemma StoreOpsFormed(st: Store)
    requires StoreFormed(st)
    ensures StoreFormed(Fetched(st)) && StoreFormed(Announced(st)) && StoreFormed(Flushed(st))
  {
    forall b | b in multiset(st.fetched) ensures b in st.fetched {
    }
  }

  lemma MovesFormed(n: Name, st: Store, b: nat, v: Block, seen: bool)
    requires StoreFormed(st) && b < |st.src|
    ensures StoreFormed(Written(n, st, b, v, seen)) && StoreFormed(WrittenBack(st, b))
    ensures StoreFormed(Torn(st, b, v)) && StoreFormed(Touched(st, b)) && StoreFormed(Read(st, b))
    ensures b in st.wire ==> StoreFormed(Delivered(st, b))
  {
  }

  lemma StoresFormed(s: State, t: State, n: Name, c: Choice, k: Name)
    requires Has(s, n) && DataEffect(s, t, n, c) && k in s.store && k in t.store && StoreFormed(s.store[k])
    ensures StoreFormed(t.store[k])
  {
    StoreOpsFormed(s.store[k]);
  }

  lemma EffectFormed(s: State, t: State, n: Name, c: Choice)
    requires WellFormed(s) && Has(s, n) && Guarantee(s, t, n) && DataEffect(s, t, n, c)
    requires t.store.Keys == t.pc.Keys == t.m.devices.Keys == s.pc.Keys
    ensures WellFormed(t)
  {
    forall k | k in t.store ensures StoreFormed(t.store[k]) {
      StoresFormed(s, t, n, c, k);
    }
  }

  lemma ThreadSound(s: State, n: Name, c: Choice)
    requires Sound(s) && CanStep(s, n)
    ensures Sound(StepThread(s, n, c)) && Guarantee(Halted(s), Halted(StepThread(s, n, c)), n)
  {
    var h := Halted(s);
    ThreadBlind(s, n, c);
    ThreadKeepsControl(h, n, c);
    assert LocksKept(h, n) && ThreadKept(h, n);
    ThreadEffect(h, n, c);
    SameNames(h, StepThread(h, n, c), n, c);
    EffectFormed(h, StepThread(h, n, c), n, c);
  }

  /** What an action on a store leaves alone. */
  ghost predicate OnlyStores(s: State, t: State) {
    t.m == s.m && t.pc == s.pc && t.locks == s.locks && t.running == s.running
  }

  lemma StoreSound(s: State, n: Name, st: Store)
    requires Sound(s) && n in s.store && StoreFormed(st)
    ensures Sound(SetStore(s, n, st)) && OnlyStores(s, SetStore(s, n, st))
  {
    StoreActionKeepsControl(Halted(s), n, st);
    assert Halted(SetStore(s, n, st)) == SetStore(Halted(s), n, st);
    StoreKeepsForm(s, n, st);
  }

  lemma StoreKeepsForm(s: State, n: Name, st: Store)
    requires WellFormed(s) && n in s.store && StoreFormed(st)
    ensures WellFormed(SetStore(s, n, st))
  {
  }

  lemma MoveSound(s: State, a: Action)
    requires Sound(s) && Enabled(s, a) && !a.Thread?
    ensures Sound(Do(s, a)) && OnlyStores(s, Do(s, a))
  {
    var st := s.store[a.n];
    assert StoreFormed(st);
    match a
    case GuestWrite(n, b, v, seen) =>
      MovesFormed(n, st, b, v, seen);
      StoreSound(s, n, Written(n, st, b, v, seen));
    case Writeback(n, b) =>
      MovesFormed(n, st, b, [], false);
      StoreSound(s, n, WrittenBack(st, b));
    case Tear(n, b, v) =>
      MovesFormed(n, st, b, v, false);
      StoreSound(s, n, Torn(st, b, v));
    case Touch(n, b) =>
      MovesFormed(n, st, b, [], false);
      StoreSound(s, n, Touched(st, b));
    case ReadBlock(n, b) =>
      MovesFormed(n, st, b, [], false);
      StoreSound(s, n, Read(st, b));
    case Deliver(n, b) =>
      MovesFormed(n, st, b, [], false);
      StoreSound(s, n, Delivered(st, b));
  }

  lemma ActionSound(s: State, a: Action)
    requires Sound(s) && Enabled(s, a)
    ensures Sound(Do(s, a))
  {
    if a.Thread? {
      ThreadSound(s, a.n, a.choice);
    } else {
      MoveSound(s, a);
    }
  }

  /** During the call the machine is as the migration left it, so the invariant holds as it stands. */
  lemma ActionKeepsControl(s: State, a: Action)
    requires Control(s) && Enabled(s, a)
    ensures Control(Do(s, a)) && (Do(s, a).running ==> s.running)
  {
    match a
    case Thread(n, c) => ThreadKeepsControl(s, n, c);
    case GuestWrite(n, b, v, seen) => StoreActionKeepsControl(s, n, Written(n, s.store[n], b, v, seen));
    case Writeback(n, b) => StoreActionKeepsControl(s, n, WrittenBack(s.store[n], b));
    case Tear(n, b, v) => StoreActionKeepsControl(s, n, Torn(s.store[n], b, v));
    case Touch(n, b) => StoreActionKeepsControl(s, n, Touched(s.store[n], b));
    case ReadBlock(n, b) => StoreActionKeepsControl(s, n, Read(s.store[n], b));
    case Deliver(n, b) => StoreActionKeepsControl(s, n, Delivered(s.store[n], b));
  }

  /** No action starts the machine. */
  lemma ActionNeverStarts(s: State, a: Action)
    requires Sound(s) && Enabled(s, a)
    ensures Do(s, a).running ==> s.running
  {
    if a.Thread? {
      ThreadNeverStarts(s, a.n, a.choice);
    } else {
      MoveSound(s, a);
    }
  }

  lemma ThreadNeverStarts(s: State, n: Name, c: Choice)
    requires Has(s, n)
    ensures StepThread(s, n, c).running ==> s.running
  {
  }

  lemma StoppedKeepsControl(s: State)
    requires Control(s)
    ensures Control(Halted(s))
  {
    forall n | n in s.pc ensures LocksKept(Halted(s), n) && ThreadKept(Halted(s), n) {
      assert LocksKept(s, n) && ThreadKept(s, n);
    }
  }

  lemma InitSound(s: State)
    requires Init(s)
    ensures Control(s) && Sound(s) && !s.m.transferCompleted
  {
    InitControl(s);
    StoppedKeepsControl(s);
  }

  // ----- authority events -----

  /** What the invariant says about calls of the transfer. */
  ghost predicate TransferFacts(s: State) {
    && s.m.transfers <= 1 && (s.m.transfers == 1 ==> s.m.transferCompleted)
    && (forall n | n in Calling(s) :: s.m.transferCompleted && s.m.transfers == 0 && s.locks.ready == By(n))
    && (s.m.transferCompleted && s.m.transfers == 0 ==> Calling(s) != {})
  }

  lemma ControlTransferFacts(s: State)
    requires Control(s)
    ensures TransferFacts(s)
  {
    forall n | n in Calling(s) ensures s.m.transferCompleted && s.m.transfers == 0 && s.locks.ready == By(n) {
      assert ThreadKept(s, n) && LocksKept(s, n);
    }
    if s.m.transferCompleted && s.m.transfers == 0 {
      assert s.locks.ready.n in Calling(s);
    }
  }

  lemma SoundTransferFacts(s: State)
    requires Sound(s)
    ensures TransferFacts(s)
  {
    ControlTransferFacts(Halted(s));
    assert Calling(Halted(s)) == Calling(s);
  }

  lemma OneAtMost(names: set<Name>, o: Owner)
    requires forall n | n in names :: o == By(n)
    ensures |names| <= 1 && (names != {} ==> |names| == 1)
  {
    if n :| n in names {
      assert names == {n};
    }
  }

  lemma FactsCount(s: State)
    requires TransferFacts(s)
    ensures Sends(s) == if s.m.transferCompleted then 1 else 0
  {
    OneAtMost(Calling(s), s.locks.ready);
  }

  /** Exactly one event has been sent once the transfer flag is set, and none before. */
  lemma SendsExact(s: State)
    requires Sound(s)
    ensures Sends(s) == if s.m.transferCompleted then 1 else 0
  {
    SoundTransferFacts(s);
    FactsCount(s);
  }

  lemma TransferredIsSuspended(s: State)
    requires Sound(s) && s.m.transferCompleted
    ensures s.m.vm.suspended && AllSent(s.m.devices)
  {
    var n :| n in s.m.devices;
    assert ThreadKept(Halted(s), n);
  }

  /** While the call lasts, a machine that has been handed over does not run. */
  lemma TransferredIsStopped(s: State)
    requires Sound(s) && Control(s) && s.m.transferCompleted
    ensures !s.running
  {
    TransferredIsSuspended(s);
  }

  lemma FlagStays(s: State, a: Action)
    requires Sound(s) && Enabled(s, a)
    ensures s.m.transferCompleted ==> Do(s, a).m.transferCompleted
  {
    if a.Thread? {
      ThreadSound(s, a.n, a.choice);
    } else {
      MoveSound(s, a);
    }
  }

  lemma SendsGrow(s: State, a: Action)
    requires Sound(s) && Enabled(s, a)
    ensures Sends(s) <= Sends(Do(s, a))
  {
    ActionSound(s, a);
    FlagStays(s, a);
    SendsExact(s);
    SendsExact(Do(s, a));
  }

  // ----- after MigrateTo has returned -----

  lemma OverStays(s: State, a: Action)
    requires Sound(s) && Over(s) && Enabled(s, a)
    ensures Over(Do(s, a))
  {
    if a.Thread? {
      ThreadSound(s, a.n, a.choice);
      var n :| n in s.pc && s.pc[n].Failed?;
      FailedStays(Halted(s), Halted(Do(s, a)), a.n, n);
    } else {
      MoveSound(s, a);
    }
  }

  lemma FailedStays(s: State, t: State, k: Name, n: Name)
    requires n in s.pc && s.pc[n].Failed? && k in s.pc && !Finished(s.pc[k]) && OwnEntries(s, t, k)
    ensures n in t.pc && t.pc[n] == Failed
    ensures n in s.m.devices ==> n in t.m.devices && t.m.devices[n] == s.m.devices[n]
  {
  }

  /** A loop that failed with its list unsent keeps the flag down for good, whatever the others go on to do. */
  lemma OverIsDecided(s: State, a: Action)
    requires Sound(s) && Over(s) && Enabled(s, a)
    ensures Do(s, a).m.transferCompleted == s.m.transferCompleted
  {
    FlagStays(s, a);
    if a.Thread? && !s.m.transferCompleted {
      ThreadSound(s, a.n, a.choice);
      var n :| n in s.pc && s.pc[n].Failed?;
      FailedUnsent(s, n);
      FailedStays(Halted(s), Halted(Do(s, a)), a.n, n);
      FailedUnsent(Do(s, a), n);
    } else if !a.Thread? {
      MoveSound(s, a);
    }
  }

  /** A loop that failed has sent its list exactly if the transfer was called, and that is the call that failed. */
  lemma FailedUnsent(s: State, n: Name)
    requires Sound(s) && n in s.pc && s.pc[n].Failed?
    ensures n in s.m.devices && (s.m.devices[n].sentDirty <==> s.m.transferCompleted)
  {
    assert ThreadKept(Halted(s), n);
    if s.m.transferCompleted {
      TransferredIsSuspended(s);
    }
  }

  /** And loops that all ended without an error have handed the machine over. */
  lemma EndedHandsOver(s: State)
    requires Sound(s) && forall n | n in s.pc :: s.pc[n] == Ended
    ensures s.m.transferCompleted && s.m.transfers == 1 && s.m.vm.suspended
  {
    AllEndedTransferred(Halted(s));
    TransferredIsSuspended(s);
  }

  // ----- in one piece -----

  /** What every step keeps, whoever runs the machine. */
  ghost predicate Onward(s: State, t: State) {
    && (t.running ==> s.running) && Sends(s) <= Sends(t)
    && (Over(s) ==> Over(t) && t.m.transferCompleted == s.m.transferCompleted)
  }

  lemma ActionOnward(s: State, a: Action)
    requires Sound(s) && Enabled(s, a)
    ensures Sound(Do(s, a)) && Onward(s, Do(s, a))
  {
    ActionSound(s, a);
    ActionNeverStarts(s, a);
    SendsGrow(s, a);
    if Over(s) {
      OverStays(s, a);
      OverIsDecided(s, a);
    }
  }

  lemma CalledOnward(s: State, a: Action)
    requires Sound(s) && Control(s) && Enabled(s, a)
    ensures Control(Do(s, a)) && (Do(s, a).m.transferCompleted ==> !Do(s, a).running)
  {
    ActionSound(s, a);
    ActionKeepsControl(s, a);
    if Do(s, a).m.transferCompleted {
      TransferredIsStopped(Do(s, a));
    }
  }

  lemma SeenSound(s: State, up: bool)
    requires Sound(s)
    ensures Sound(Seen(s, up))
  {
    assert Halted(Seen(s, up)) == Halted(s);
  }
}
