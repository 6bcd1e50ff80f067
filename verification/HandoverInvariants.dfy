/** What every step of the handover keeps.

    The control invariant is one predicate about a single thread and one about the shared part. A step is shown to
    respect a guarantee towards the other threads (it changes shared variables only under their mutex, and only
    forwards), and that guarantee alone keeps what the others rely on. */
module HandoverInvariants {
  import opened Handover
  import opened HandoverSystem

  // ----- regions of a thread's program -----

  ghost predicate Inserting(pc: PC) {
    pc.ShortcutInsert? || pc.MarkInsert?
  }

  /** Past the scan that found every device sent, not yet through the test of the transfer flag. */
  ghost predicate Deciding(pc: PC) {
    pc.SentSuspendWait? || pc.SentSuspendRead? || pc.SentTransferWait? || pc.SentTransferTest?
  }

  ghost predicate PastScan(pc: PC) {
    Deciding(pc) || pc.SentTransferring?
  }

  /** Where only a pass that sampled the machine as suspended can be. */
  ghost predicate InSuspendedPass(pc: PC) {
    pc.SentWait? || pc.SentMark? || PastScan(pc) || pc.Ended?
  }

  ghost predicate BeforeVM(pc: PC) {
    pc.VMWait? || pc.VMTest? || pc.Suspending? || pc.Flushing? || pc.Stopping?
  }

  ghost predicate InSuspend(pc: PC) {
    pc.SuspendWait? || pc.SuspendTest? || BeforeVM(pc) || pc.Finishing?
  }

  ghost predicate InCycle(pc: PC) {
    || pc.Delaying? || pc.DelayRead? || pc.DelayFull? || pc.Counting? || pc.MarkFlag? || pc.MarkInsert?
    || pc.CountReady? || InSuspend(pc)
  }

  ghost predicate InShortcut(pc: PC) {
    pc.Msyncing? || pc.ShortcutFlag? || pc.ShortcutInsert?
  }

  // ----- the control invariant -----

  ghost predicate LocksKept(s: State, n: Name)
    requires n in s.pc
  {
    && (Holds(s.pc[n], ReadyLock) <==> s.locks.ready == By(n))
    && (Holds(s.pc[n], SuspendLock) <==> s.locks.suspend == By(n))
    && (Holds(s.pc[n], SuspendedLock) <==> s.locks.suspended == By(n))
    && (Holds(s.pc[n], TransferLock) <==> s.locks.transfer == By(n))
  }

  /** What holds of one thread. */
  ghost predicate ThreadKept(s: State, n: Name)
    requires n in s.pc && n in s.m.devices
  {
    var pc, d, m := s.pc[n], s.m.devices[n], s.m;
    // ReadyDevices holds the devices flagged ready, up to the insertion this thread is about to make
    && (d.ready <==> n in m.readyKeys || Inserting(pc))
    && (Inserting(pc) ==> n !in m.readyKeys)
    // the suspend
    && (InSuspend(pc) ==> AllReady(m.devices, m.readyKeys))
    && (BeforeVM(pc) ==> !m.suspendCompleted && !m.vm.suspended)
    && (pc.Finishing? ==> !m.suspendCompleted && (m.vm.suspended <==> pc.error == NoError))
    && (pc.Flushing? || pc.Stopping? ==> !s.running)
    // the sample taken at the start of the pass
    && (d.suspendedAtPre ==> m.vm.suspended)
    && (pc.Pre? || InShortcut(pc) || InCycle(pc) ==> !d.suspendedAtPre)
    && (InSuspendedPass(pc) ==> d.suspendedAtPre)
    && (d.sentDirty ==> d.suspendedAtPre && (PastScan(pc) || Finished(pc)))
    && (PastScan(pc) || pc.Ended? ==> d.sentDirty)
    // the transfer
    && (PastScan(pc) ==> AllSent(m.devices))
    && (Deciding(pc) ==> !m.transferCompleted)
    && (pc.SentTransferWait? || pc.SentTransferTest? ==> m.suspendCompleted)
    && (pc.SentTransferring? ==> m.transferCompleted && m.transfers == 0)
    && (pc.Failed? && d.sentDirty ==> m.transfers == 1)
  }

  /** The suspend has succeeded and its thread has yet to say so. */
  ghost predicate SuspendReporting(s: State) {
    s.locks.suspend.By? && s.locks.suspend.n in s.pc && s.pc[s.locks.suspend.n] == Finishing(NoError)
  }

  ghost predicate TransferCalling(s: State) {
    s.locks.ready.By? && s.locks.ready.n in s.pc && s.pc[s.locks.ready.n].SentTransferring?
  }

  ghost predicate TransferDeciding(s: State) {
    s.locks.ready.By? && s.locks.ready.n in s.pc && Deciding(s.pc[s.locks.ready.n])
  }

  ghost predicate SharedKept(s: State) {
    var m := s.m;
    && m.doneChannelClosed == m.suspendCompleted
    && m.vm.channelClosed == m.vm.suspended
    && (m.suspendCompleted || m.vm.suspended ==> AllReady(m.devices, m.readyKeys))
    && (m.vm.suspended ==> !s.running)
    && (m.vm.suspended && !m.suspendCompleted ==> SuspendReporting(s))
    && m.transfers <= 1
    && (m.transfers == 1 ==> m.transferCompleted)
    && (m.transferCompleted ==> AllSent(m.devices) && m.suspendCompleted)
    && (m.transferCompleted && m.transfers == 0 ==> TransferCalling(s))
    && (AllSent(m.devices) && !m.transferCompleted ==> TransferDeciding(s))
  }

  ghost predicate Shape(s: State) {
    && s.pc.Keys == s.m.devices.Keys
    && s.m.readyKeys <= s.m.devices.Keys
    && (s.locks.ready.By? ==> s.locks.ready.n in s.pc)
    && (s.locks.suspend.By? ==> s.locks.suspend.n in s.pc)
    && (s.locks.suspended.By? ==> s.locks.suspended.n in s.pc)
    && (s.locks.transfer.By? ==> s.locks.transfer.n in s.pc)
  }

  ghost predicate Control(s: State) {
    && Shape(s)
    && SharedKept(s)
    && forall n | n in s.pc :: LocksKept(s, n) && ThreadKept(s, n)
  }

  // ----- what a thread guarantees to the others -----

  ghost predicate OwnerMoved(before: Owner, after: Owner, n: Name) {
    after == before || (before == Free && after == By(n)) || (before == By(n) && after == Free)
  }

  /** Only the thread's own entries change. */
  ghost predicate OwnEntries(s: State, t: State, n: Name) {
    && n in t.pc && t.pc == s.pc[n := t.pc[n]]
    && n in t.m.devices && (t.m.devices == s.m.devices || t.m.devices == s.m.devices[n := t.m.devices[n]])
    && (t.m.readyKeys == s.m.readyKeys || t.m.readyKeys == s.m.readyKeys + {n})
  }

  ghost predicate Guarantee(s: State, t: State, n: Name) {
    && OwnEntries(s, t, n)
    && OwnerMoved(s.locks.ready, t.locks.ready, n)
    && OwnerMoved(s.locks.suspend, t.locks.suspend, n)
    && OwnerMoved(s.locks.suspended, t.locks.suspended, n)
    && OwnerMoved(s.locks.transfer, t.locks.transfer, n)
    && (t.running ==> s.running)
    && (s.m.suspendCompleted ==> t.m.suspendCompleted)
    && (s.m.vm.suspended ==> t.m.vm.suspended)
    && (s.m.transferCompleted ==> t.m.transferCompleted)
    && (AllSent(s.m.devices) ==> AllSent(t.m.devices))
    && (t.m.suspendCompleted != s.m.suspendCompleted || t.m.vm.suspended != s.m.vm.suspended ==>
          s.locks.suspend == By(n))
    && (t.m.transferCompleted != s.m.transferCompleted || t.m.transfers != s.m.transfers ==> s.locks.ready == By(n))
    && s.m.transfers <= t.m.transfers <= 1
  }

  lemma OthersKept(s: State, t: State, n: Name, k: Name)
    requires Shape(s) && k in s.pc && k != n && LocksKept(s, k) && ThreadKept(s, k)
    requires n in s.pc && Guarantee(s, t, n)
    ensures LocksKept(t, k) && ThreadKept(t, k)
  {
    if AllReady(s.m.devices, s.m.readyKeys) {
      forall j | j in t.m.devices ensures j in t.m.readyKeys {
        assert j in s.m.devices;
      }
    }
  }

  // ----- each thread step -----

  lemma OneDeviceSent(devices: map<Name, Status>, n: Name, d: Status)
    requires n in devices
    ensures d.ready == devices[n].ready && d.sentDirty == devices[n].sentDirty ==>
              (AllSent(devices[n := d]) <==> AllSent(devices))
    ensures !devices[n].sentDirty ==> !AllSent(devices)
    ensures !d.sentDirty ==> !AllSent(devices[n := d])
  {
    var after := devices[n := d];
    assert n in after && after[n] == d;
    if d.ready == devices[n].ready && d.sentDirty == devices[n].sentDirty {
      forall k | k in devices ensures after[k].ready == devices[k].ready && after[k].sentDirty == devices[k].sentDirty {
      }
      assert AllSent(devices) ==> AllSent(after);
      if AllSent(after) {
        forall k | k in devices ensures devices[k].ready && devices[k].sentDirty {
          assert k in after;
        }
      }
    }
  }

  /** What a step owes: the guarantee to the others, the shared part, and its own thread's part. */
  ghost predicate Good(s: State, t: State, n: Name)
    requires n in s.pc
  {
    && Guarantee(s, t, n)
    && SharedKept(t)
    && LocksKept(t, n)
    && ThreadKept(t, n)
  }

  ghost predicate Ready(s: State, n: Name) {
    CanStep(s, n) && Shape(s) && SharedKept(s) && LocksKept(s, n) && ThreadKept(s, n)
  }

  /** Where a thread holds no mutex and has nothing half done. */
  ghost predicate Plain(pc: PC) {
    && !Holds(pc, ReadyLock) && !Holds(pc, SuspendLock) && !Holds(pc, SuspendedLock) && !Holds(pc, TransferLock)
    && !Inserting(pc) && !pc.Ended?
  }

  lemma PlainMoveLocks(s: State, store: map<Name, Store>, n: Name, pc: PC)
    requires Ready(s, n) && Plain(s.pc[n]) && Plain(pc)
    ensures var t := Goto(s.(store := store), n, pc); Guarantee(s, t, n) && LocksKept(t, n)
  {
  }

  lemma PlainMoveShared(s: State, store: map<Name, Store>, n: Name, pc: PC)
    requires Ready(s, n) && Plain(s.pc[n]) && Plain(pc)
    ensures SharedKept(Goto(s.(store := store), n, pc))
  {
    assert s.locks.suspend != By(n) && s.locks.ready != By(n);
  }

  lemma PlainMoveThread(s: State, store: map<Name, Store>, n: Name, pc: PC)
    requires Ready(s, n) && Plain(s.pc[n]) && Plain(pc)
    requires pc.SuspendWait? ==> AllReady(s.m.devices, s.m.readyKeys)
    requires pc.Pre? || InShortcut(pc) || InCycle(pc) ==> !s.m.devices[n].suspendedAtPre
    requires pc.SentWait? ==> s.m.devices[n].suspendedAtPre
    ensures ThreadKept(Goto(s.(store := store), n, pc), n)
  {
  }

  /** A step that only moves the thread, and perhaps its store, between such places. */
  lemma PlainMoveIsGood(s: State, store: map<Name, Store>, n: Name, pc: PC)
    requires Ready(s, n) && Plain(s.pc[n]) && Plain(pc)
    requires pc.SuspendWait? ==> AllReady(s.m.devices, s.m.readyKeys)
    requires pc.Pre? || InShortcut(pc) || InCycle(pc) ==> !s.m.devices[n].suspendedAtPre
    requires pc.SentWait? ==> s.m.devices[n].suspendedAtPre
    ensures Good(s, Goto(s.(store := store), n, pc), n)
  {
    PlainMoveLocks(s, store, n, pc);
    PlainMoveShared(s, store, n, pc);
    PlainMoveThread(s, store, n, pc);
  }

  lemma FetchStep(s: State, n: Name, c: Choice)
    requires Ready(s, n) && s.pc[n].Fetching?
    ensures Good(s, StepDriver(s, n, c), n)
  {
    PlainMoveIsGood(s, s.store[n := Fetched(s.store[n])], n, PostGet);
  }

  lemma AnnounceStep(s: State, n: Name, c: Choice)
    requires Ready(s, n) && s.pc[n].Announcing?
    ensures Good(s, StepDriver(s, n, c), n)
  {
    PlainMoveIsGood(s, s.store[n := Announced(s.store[n])], n, if c.broken then Failed else PostMigrate);
  }

  lemma PostGetStep(s: State, n: Name, c: Choice)
    requires Ready(s, n) && s.pc[n].PostGet?
    ensures Good(s, StepDriver(s, n, c), n)
  {
    var send := s.store[n].fetched == {} && s.m.devices[n].suspendedAtPre;
    PlainMoveIsGood(s, s.store, n, if send then SentWait else Announcing);
  }

  lemma PostMigrateStep(s: State, n: Name, c: Choice)
    requires Ready(s, n) && s.pc[n].PostMigrate?
    ensures Good(s, StepDriver(s, n, c), n)
  {
    PlainMoveIsGood(s, s.store, n, if s.m.devices[n].suspendedAtPre then SentWait else Delaying);
  }

  lemma DelayStep(s: State, n: Name, c: Choice)
    requires Ready(s, n) && s.pc[n].Delaying?
    ensures Good(s, StepThrottle(s, n, c), n)
  {
    PlainMoveIsGood(s, s.store, n, if s.m.doneChannelClosed && c.interrupted then DelayRead else Counting);
  }

  lemma InterruptStep(s: State, n: Name, c: Choice)
    requires Ready(s, n) && s.pc[n].DelayRead?
    ensures Good(s, StepThrottle(s, n, c), n)
  {
    PlainMoveIsGood(s, s.store, n, if s.m.devices[n].sentDirty then DelayFull else Counting);
  }

  lemma FullDelayStep(s: State, n: Name, c: Choice)
    requires Ready(s, n) && s.pc[n].DelayFull?
    ensures Good(s, StepThrottle(s, n, c), n)
  {
    PlainMoveIsGood(s, s.store, n, Counting);
  }

  lemma MsyncStep(s: State, n: Name, c: Choice)
    requires Ready(s, n) && s.pc[n].Msyncing?
    ensures Good(s, StepPre(s, n, c), n)
  {
    PlainMoveIsGood(s, s.store, n, if c.out.msyncOk then Fetching else Failed);
  }

  lemma CountReadyStep(s: State, n: Name, c: Choice)
    requires Ready(s, n) && s.pc[n].CountReady?
    ensures Good(s, StepCycle(s, n, c), n)
  {
    CountMeansAll(s.m.devices, s.m.readyKeys);
    PlainMoveIsGood(s, s.store, n, if |s.m.readyKeys| == |s.m.devices| then SuspendWait else Pre);
  }

  /** Setting the `Ready` flag, as both callers of markDeviceReady do. */
  lemma FlagIsGood(s: State, n: Name, pc: PC)
    requires Ready(s, n) && Inserting(pc)
    requires if pc.MarkInsert? then s.pc[n].MarkFlag? else s.pc[n].ShortcutFlag?
    requires !s.m.devices[n].ready
    ensures Good(s, Goto(SetDevice(s, n, Flagged(s.m.devices[n])), n, pc), n)
  {
    OneDeviceSent(s.m.devices, n, Flagged(s.m.devices[n]));
  }

  /** The insertion into `ReadyDevices` that follows it. */
  lemma InsertIsGood(s: State, n: Name, pc: PC)
    requires Ready(s, n) && Inserting(s.pc[n])
    requires pc == if s.pc[n].MarkInsert? then CountReady else PostGet
    ensures Good(s, Goto(s.(m := Inserted(s.m, n)), n, pc), n)
  {
  }

  lemma SentMarkLast(s: State, n: Name, c: Choice)
    requires Ready(s, n) && s.pc[n].SentMark? && AllSent(s.m.devices[n := s.m.devices[n].(sentDirty := true)])
    ensures Good(s, StepSent(s, n, c), n)
  {
    OneDeviceSent(s.m.devices, n, s.m.devices[n].(sentDirty := true));
  }

  lemma SentMarkNotLast(s: State, n: Name, c: Choice)
    requires Ready(s, n) && s.pc[n].SentMark? && !AllSent(s.m.devices[n := s.m.devices[n].(sentDirty := true)])
    ensures Good(s, StepSent(s, n, c), n)
  {
    OneDeviceSent(s.m.devices, n, s.m.devices[n].(sentDirty := true));
  }

  lemma PreGuarantee(s: State, n: Name, c: Choice)
    requires Ready(s, n) && s.pc[n].Pre?
    ensures Guarantee(s, StepPre(s, n, c), n)
  {
    OneDeviceSent(s.m.devices, n, s.m.devices[n].(suspendedAtPre := s.m.vm.suspended));
  }

  lemma PreThread(s: State, n: Name, c: Choice)
    requires Ready(s, n) && s.pc[n].Pre?
    ensures LocksKept(StepPre(s, n, c), n) && ThreadKept(StepPre(s, n, c), n)
  {
  }

  lemma PreStep(s: State, n: Name, c: Choice)
    requires Ready(s, n) && s.pc[n].Pre?
    ensures Good(s, StepPre(s, n, c), n)
  {
    PreGuarantee(s, n, c);
    PreThread(s, n, c);
    OneDeviceSent(s.m.devices, n, s.m.devices[n].(suspendedAtPre := s.m.vm.suspended));
  }

  lemma SentTakeStep(s: State, n: Name, c: Choice)
    requires Ready(s, n) && s.pc[n].SentWait?
    ensures Good(s, StepSent(s, n, c), n)
  {
  }

  lemma SuspendAskStep(s: State, n: Name, c: Choice)
    requires Ready(s, n) && s.pc[n].SentSuspendWait?
    ensures Good(s, StepTransfer(s, n, c), n)
  {
  }

  lemma SuspendReadStep(s: State, n: Name, c: Choice)
    requires Ready(s, n) && s.pc[n].SentSuspendRead?
    ensures Good(s, StepTransfer(s, n, c), n)
  {
  }

  lemma TransferTakeStep(s: State, n: Name, c: Choice)
    requires Ready(s, n) && s.pc[n].SentTransferWait?
    ensures Good(s, StepTransfer(s, n, c), n)
  {
  }

  lemma TransferTestStep(s: State, n: Name, c: Choice)
    requires Ready(s, n) && s.pc[n].SentTransferTest?
    ensures Good(s, StepTransfer(s, n, c), n)
  {
  }

  lemma TransferCallStep(s: State, n: Name, c: Choice)
    requires Ready(s, n) && s.pc[n].SentTransferring?
    ensures Good(s, StepTransfer(s, n, c), n)
  {
  }

  lemma CountingGuarantee(s: State, n: Name, c: Choice)
    requires Ready(s, n) && s.pc[n].Counting?
    ensures Guarantee(s, StepCycle(s, n, c), n)
  {
    OneDeviceSent(s.m.devices, n, Counted(s.m.devices[n], s.store[n].listed));
  }

  lemma CountingThread(s: State, n: Name, c: Choice)
    requires Ready(s, n) && s.pc[n].Counting?
    ensures LocksKept(StepCycle(s, n, c), n) && ThreadKept(StepCycle(s, n, c), n)
  {
  }

  lemma CountingStep(s: State, n: Name, c: Choice)
    requires Ready(s, n) && s.pc[n].Counting?
    ensures Good(s, StepCycle(s, n, c), n)
  {
    CountingGuarantee(s, n, c);
    CountingThread(s, n, c);
    OneDeviceSent(s.m.devices, n, Counted(s.m.devices[n], s.store[n].listed));
  }

  lemma SuspendTakeStep(s: State, n: Name, c: Choice)
    requires Ready(s, n) && s.pc[n].SuspendWait?
    ensures Good(s, StepSuspend(s, n, c), n)
  {
  }

  lemma SuspendTestStep(s: State, n: Name, c: Choice)
    requires Ready(s, n) && s.pc[n].SuspendTest?
    ensures Good(s, StepSuspend(s, n, c), n)
  {
  }

  lemma VMTakeStep(s: State, n: Name, c: Choice)
    requires Ready(s, n) && s.pc[n].VMWait?
    ensures Good(s, StepSuspend(s, n, c), n)
  {
  }

  lemma VMTestStep(s: State, n: Name, c: Choice)
    requires Ready(s, n) && s.pc[n].VMTest?
    ensures Good(s, StepSuspend(s, n, c), n)
  {
  }

  lemma SuspendingStep(s: State, n: Name, c: Choice)
    requires Ready(s, n) && s.pc[n].Suspending? && c.out.suspendOk
    ensures Good(s, StepCallback(s, n, c), n)
  {
  }

  lemma SuspendFailsStep(s: State, n: Name, c: Choice)
    requires Ready(s, n) && s.pc[n].Suspending? && !c.out.suspendOk
    ensures Good(s, StepCallback(s, n, c), n)
  {
  }

  lemma FlushingStep(s: State, n: Name, c: Choice)
    requires Ready(s, n) && s.pc[n].Flushing? && c.out.msyncOk
    ensures Good(s, StepCallback(s, n, c), n)
  {
  }

  lemma FlushFailsStep(s: State, n: Name, c: Choice)
    requires Ready(s, n) && s.pc[n].Flushing? && !c.out.msyncOk
    ensures Good(s, StepCallback(s, n, c), n)
  {
  }

  lemma StoppingStep(s: State, n: Name, c: Choice)
    requires Ready(s, n) && s.pc[n].Stopping?
    ensures Good(s, StepCallback(s, n, c), n)
  {
  }

  lemma FinishingGuarantee(s: State, n: Name, c: Choice)
    requires Ready(s, n) && s.pc[n].Finishing?
    ensures Guarantee(s, StepCallback(s, n, c), n)
  {
  }

  lemma FinishingShared(s: State, n: Name, c: Choice)
    requires Ready(s, n) && s.pc[n].Finishing?
    ensures SharedKept(StepCallback(s, n, c))
  {
  }

  lemma FinishingStep(s: State, n: Name, c: Choice)
    requires Ready(s, n) && s.pc[n].Finishing?
    ensures Good(s, StepCallback(s, n, c), n)
  {
    FinishingGuarantee(s, n, c);
    FinishingShared(s, n, c);
  }

  lemma ShortcutFlagStep(s: State, n: Name, c: Choice)
    requires Ready(s, n) && s.pc[n].ShortcutFlag?
    ensures Good(s, StepPre(s, n, c), n)
  {
    if s.m.devices[n].ready {
      PlainMoveIsGood(s, s.store, n, PostGet);
    } else {
      FlagIsGood(s, n, ShortcutInsert);
    }
  }

  lemma MarkFlagStep(s: State, n: Name, c: Choice)
    requires Ready(s, n) && s.pc[n].MarkFlag?
    ensures Good(s, StepCycle(s, n, c), n)
  {
    if s.m.devices[n].ready {
      PlainMoveIsGood(s, s.store, n, CountReady);
    } else {
      FlagIsGood(s, n, MarkInsert);
    }
  }

  // ----- the steps of each hook -----

  lemma PreStepGood(s: State, n: Name, c: Choice)
    requires Ready(s, n) && (s.pc[n].Pre? || s.pc[n].Msyncing? || s.pc[n].ShortcutFlag? || s.pc[n].ShortcutInsert?)
    ensures Good(s, StepThread(s, n, c), n)
  {
    match s.pc[n]
    case Pre => PreStep(s, n, c);
    case Msyncing => MsyncStep(s, n, c);
    case ShortcutFlag => ShortcutFlagStep(s, n, c);
    case ShortcutInsert => InsertIsGood(s, n, PostGet);
  }

  lemma DriverStepGood(s: State, n: Name, c: Choice)
    requires Ready(s, n) && (s.pc[n].Fetching? || s.pc[n].PostGet? || s.pc[n].Announcing? || s.pc[n].PostMigrate?)
    ensures Good(s, StepThread(s, n, c), n)
  {
    match s.pc[n]
    case Fetching => FetchStep(s, n, c);
    case PostGet => PostGetStep(s, n, c);
    case Announcing => AnnounceStep(s, n, c);
    case PostMigrate => PostMigrateStep(s, n, c);
  }

  lemma SentStepGood(s: State, n: Name, c: Choice)
    requires Ready(s, n) && (s.pc[n].SentWait? || s.pc[n].SentMark?)
    ensures Good(s, StepThread(s, n, c), n)
  {
    if s.pc[n].SentWait? {
      SentTakeStep(s, n, c);
    } else if AllSent(s.m.devices[n := s.m.devices[n].(sentDirty := true)]) {
      SentMarkLast(s, n, c);
    } else {
      SentMarkNotLast(s, n, c);
    }
  }

  lemma TransferStepGood(s: State, n: Name, c: Choice)
    requires Ready(s, n) && PastScan(s.pc[n])
    ensures Good(s, StepThread(s, n, c), n)
  {
    match s.pc[n]
    case SentSuspendWait => SuspendAskStep(s, n, c);
    case SentSuspendRead => SuspendReadStep(s, n, c);
    case SentTransferWait => TransferTakeStep(s, n, c);
    case SentTransferTest => TransferTestStep(s, n, c);
    case SentTransferring => TransferCallStep(s, n, c);
  }

  lemma ThrottleStepGood(s: State, n: Name, c: Choice)
    requires Ready(s, n) && (s.pc[n].Delaying? || s.pc[n].DelayRead? || s.pc[n].DelayFull?)
    ensures Good(s, StepThread(s, n, c), n)
  {
    match s.pc[n]
    case Delaying => DelayStep(s, n, c);
    case DelayRead => InterruptStep(s, n, c);
    case DelayFull => FullDelayStep(s, n, c);
  }

  lemma CycleStepGood(s: State, n: Name, c: Choice)
    requires Ready(s, n) && (s.pc[n].Counting? || s.pc[n].MarkFlag? || s.pc[n].MarkInsert? || s.pc[n].CountReady?)
    ensures Good(s, StepThread(s, n, c), n)
  {
    match s.pc[n]
    case Counting => CountingStep(s, n, c);
    case MarkFlag => MarkFlagStep(s, n, c);
    case MarkInsert => InsertIsGood(s, n, CountReady);
    case CountReady => CountReadyStep(s, n, c);
  }

  lemma SuspendStepGood(s: State, n: Name, c: Choice)
    requires Ready(s, n) && (s.pc[n].SuspendWait? || s.pc[n].SuspendTest? || s.pc[n].VMWait? || s.pc[n].VMTest?)
    ensures Good(s, StepThread(s, n, c), n)
  {
    match s.pc[n]
    case SuspendWait => SuspendTakeStep(s, n, c);
    case SuspendTest => SuspendTestStep(s, n, c);
    case VMWait => VMTakeStep(s, n, c);
    case VMTest => VMTestStep(s, n, c);
  }

  lemma AttemptStepGood(s: State, n: Name, c: Choice)
    requires Ready(s, n) && (s.pc[n].Suspending? || s.pc[n].Flushing?)
    ensures Good(s, StepThread(s, n, c), n)
  {
    match s.pc[n]
    case Suspending => if c.out.suspendOk { SuspendingStep(s, n, c); } else { SuspendFailsStep(s, n, c); }
    case Flushing => if c.out.msyncOk { FlushingStep(s, n, c); } else { FlushFailsStep(s, n, c); }
  }

  lemma AfterStepGood(s: State, n: Name, c: Choice)
    requires Ready(s, n) && (s.pc[n].Stopping? || s.pc[n].Finishing?)
    ensures Good(s, StepThread(s, n, c), n)
  {
    match s.pc[n]
    case Stopping => StoppingStep(s, n, c);
    case Finishing(_) => FinishingStep(s, n, c);
  }

  lemma ThreadStepGood(s: State, n: Name, c: Choice)
    requires Ready(s, n)
    ensures Good(s, StepThread(s, n, c), n)
  {
    match s.pc[n]
    case Pre | Msyncing | ShortcutFlag | ShortcutInsert => PreStepGood(s, n, c);
    case Fetching | PostGet | Announcing | PostMigrate => DriverStepGood(s, n, c);
    case SentWait | SentMark => SentStepGood(s, n, c);
    case SentSuspendWait | SentSuspendRead | SentTransferWait | SentTransferTest | SentTransferring =>
      TransferStepGood(s, n, c);
    case Delaying | DelayRead | DelayFull => ThrottleStepGood(s, n, c);
    case Counting | MarkFlag | MarkInsert | CountReady => CycleStepGood(s, n, c);
    case SuspendWait | SuspendTest | VMWait | VMTest => SuspendStepGood(s, n, c);
    case Suspending | Flushing => AttemptStepGood(s, n, c);
    case Stopping | Finishing(_) => AfterStepGood(s, n, c);
  }

  /** Every thread step keeps the control invariant. */
  lemma ThreadKeepsControl(s: State, n: Name, c: Choice)
    requires Control(s) && CanStep(s, n)
    ensures Control(StepThread(s, n, c)) && Guarantee(s, StepThread(s, n, c), n)
  {
    var t := StepThread(s, n, c);
    assert LocksKept(s, n) && ThreadKept(s, n);
    ThreadStepGood(s, n, c);
    assert t.pc.Keys == s.pc.Keys && t.m.devices.Keys == s.m.devices.Keys;
    forall k | k in t.pc ensures LocksKept(t, k) && ThreadKept(t, k) {
      if k != n {
        assert LocksKept(s, k) && ThreadKept(s, k);
        OthersKept(s, t, n, k);
      }
    }
  }

  // ----- the data invariant -----

  ghost predicate StoreKept(st: Store, n: Name) {
    && StoreFormed(st)
    && (n != MEMORY ==> st.unflushed == {})
    && (forall b: nat | b < |st.src| && b !in st.unflushed :: st.guest[b] == st.src[b])
    && (forall b: nat | b < |st.src| && st.dst[b] != st.src[b] :: Covered(st, b) || b in st.wire)
    && (forall b: nat | b in st.wire && st.wire[b] != st.src[b] :: Covered(st, b))
  }

  /** The part that depends on how far the thread and the suspend have come. */
  ghost predicate StorePhase(s: State, n: Name)
    requires n in s.pc && n in s.store && n in s.m.devices
  {
    && (s.store[n].fetched != {} ==> s.pc[n].PostGet? || s.pc[n].Announcing?)
    && (Frozen(s) ==> s.store[n].unflushed == {})
    && (s.m.devices[n].suspendedAtPre && !s.pc[n].Fetching? ==> s.store[n].dirty == {})
  }

  ghost predicate StoresKept(store: map<Name, Store>) {
    forall k | k in store :: StoreKept(store[k], k)
  }

  ghost predicate Phases(s: State)
    requires s.store.Keys == s.pc.Keys == s.m.devices.Keys
  {
    forall n | n in s.store :: StorePhase(s, n)
  }

  ghost predicate Data(s: State) {
    && s.store.Keys == s.pc.Keys == s.m.devices.Keys
    && s.m.devices != map[]
    && StoresKept(s.store)
    && Phases(s)
  }

  lemma FetchedKept(st: Store, n: Name)
    requires StoreKept(st, n) && st.fetched == {}
    ensures StoreKept(Fetched(st), n)
  {
  }

  lemma AnnouncedKept(st: Store, n: Name)
    requires StoreKept(st, n)
    ensures StoreKept(Announced(st), n)
  {
    forall b | b in multiset(st.fetched) ensures b in st.fetched {
    }
  }

  lemma FlushedKept(st: Store, n: Name)
    requires StoreKept(st, n)
    ensures StoreKept(Flushed(st), n) && Flushed(st).unflushed == {}
  {
  }

  lemma WrittenKept(st: Store, n: Name, b: nat, v: Block, seen: bool)
    requires StoreKept(st, n) && b < |st.guest|
    ensures StoreKept(Written(n, st, b, v, seen), n)
  {
  }

  lemma WrittenBackKept(st: Store, n: Name, b: nat)
    requires StoreKept(st, n) && b in st.unflushed
    ensures StoreKept(WrittenBack(st, b), n)
  {
  }

  lemma TornKept(st: Store, n: Name, b: nat, v: Block)
    requires StoreKept(st, n) && b in st.unflushed
    ensures StoreKept(Torn(st, b, v), n)
  {
  }

  lemma TouchedKept(st: Store, n: Name, b: nat)
    requires StoreKept(st, n) && b < |st.src|
    ensures StoreKept(Touched(st, b), n)
  {
  }

  lemma ReadKept(st: Store, n: Name, b: nat)
    requires StoreKept(st, n) && b in st.pending && b !in st.wire
    ensures StoreKept(Read(st, b), n)
  {
  }

  lemma DeliveredKept(st: Store, n: Name, b: nat)
    requires StoreKept(st, n) && b in st.wire
    ensures StoreKept(Delivered(st, b), n)
  {
  }

  ghost predicate Flushes(s: State, n: Name, c: Choice)
    requires n in s.pc
  {
    s.pc[n].Flushing? && c.out.msyncOk
  }

  /** What a thread step does to the things the data invariant speaks of. */
  ghost predicate DataEffect(s: State, t: State, n: Name, c: Choice)
    requires Has(s, n)
  {
    && n in t.pc
    && (t.m.vm.suspended ==> s.m.vm.suspended || s.pc[n].Stopping?)
    && (t.pc[n].Stopping? ==> Flushes(s, n, c))
    && (if s.pc[n].Fetching? then t.store == s.store[n := Fetched(s.store[n])] && t.pc[n].PostGet?
        else if s.pc[n].Announcing? then t.store == s.store[n := Announced(s.store[n])]
        else if Flushes(s, n, c) then t.store == FlushedAll(s.store)
        else t.store == s.store)
    && (s.pc[n].PostGet? && s.store[n].fetched != {} ==> t.pc[n].Announcing?)
    && (n in t.m.devices && t.m.devices[n].suspendedAtPre && !t.pc[n].Fetching? ==>
          s.m.devices[n].suspendedAtPre && !s.pc[n].Pre?)
    && (n in t.m.devices && t.m.devices[n].suspendedAtPre && t.pc[n].Fetching? ==> s.pc[n].Pre? && s.m.vm.suspended)
  }

  lemma PreEffect(s: State, n: Name, c: Choice)
    requires Ready(s, n) && (s.pc[n].Pre? || s.pc[n].Msyncing? || s.pc[n].ShortcutFlag? || s.pc[n].ShortcutInsert?)
    ensures DataEffect(s, StepThread(s, n, c), n, c)
  {
  }

  lemma DriverEffect(s: State, n: Name, c: Choice)
    requires Ready(s, n) && (s.pc[n].Fetching? || s.pc[n].PostGet? || s.pc[n].Announcing? || s.pc[n].PostMigrate?)
    ensures DataEffect(s, StepThread(s, n, c), n, c)
  {
  }

  lemma SentEffect(s: State, n: Name, c: Choice)
    requires Ready(s, n) && (s.pc[n].SentWait? || s.pc[n].SentMark?)
    ensures DataEffect(s, StepThread(s, n, c), n, c)
  {
  }

  lemma TransferEffect(s: State, n: Name, c: Choice)
    requires Ready(s, n) && PastScan(s.pc[n])
    ensures DataEffect(s, StepThread(s, n, c), n, c)
  {
  }

  lemma ThrottleEffect(s: State, n: Name, c: Choice)
    requires Ready(s, n) && (s.pc[n].Delaying? || s.pc[n].DelayRead? || s.pc[n].DelayFull?)
    ensures DataEffect(s, StepThread(s, n, c), n, c)
  {
  }

  lemma CycleEffect(s: State, n: Name, c: Choice)
    requires Ready(s, n) && (s.pc[n].Counting? || s.pc[n].MarkFlag? || s.pc[n].MarkInsert? || s.pc[n].CountReady?)
    ensures DataEffect(s, StepThread(s, n, c), n, c)
  {
  }

  lemma SuspendEffect(s: State, n: Name, c: Choice)
    requires Ready(s, n) && (s.pc[n].SuspendWait? || s.pc[n].SuspendTest? || s.pc[n].VMWait? || s.pc[n].VMTest?)
    ensures DataEffect(s, StepThread(s, n, c), n, c)
  {
  }

  lemma AttemptEffect(s: State, n: Name, c: Choice)
    requires Ready(s, n) && (s.pc[n].Suspending? || s.pc[n].Flushing?)
    ensures DataEffect(s, StepThread(s, n, c), n, c)
  {
  }

  lemma AfterEffect(s: State, n: Name, c: Choice)
    requires Ready(s, n) && (s.pc[n].Stopping? || s.pc[n].Finishing?)
    ensures DataEffect(s, StepThread(s, n, c), n, c)
  {
  }

  lemma ThreadEffect(s: State, n: Name, c: Choice)
    requires Ready(s, n)
    ensures DataEffect(s, StepThread(s, n, c), n, c)
  {
    match s.pc[n]
    case Pre | Msyncing | ShortcutFlag | ShortcutInsert => PreEffect(s, n, c);
    case Fetching | PostGet | Announcing | PostMigrate => DriverEffect(s, n, c);
    case SentWait | SentMark => SentEffect(s, n, c);
    case SentSuspendWait | SentSuspendRead | SentTransferWait | SentTransferTest | SentTransferring =>
      TransferEffect(s, n, c);
    case Delaying | DelayRead | DelayFull => ThrottleEffect(s, n, c);
    case Counting | MarkFlag | MarkInsert | CountReady => CycleEffect(s, n, c);
    case SuspendWait | SuspendTest | VMWait | VMTest => SuspendEffect(s, n, c);
    case Suspending | Flushing => AttemptEffect(s, n, c);
    case Stopping | Finishing(_) => AfterEffect(s, n, c);
  }

  lemma FlushedAllKept(store: map<Name, Store>)
    requires StoresKept(store)
    ensures StoresKept(FlushedAll(store)) && forall k | k in store :: FlushedAll(store)[k] == Flushed(store[k])
  {
    forall k | k in store ensures StoreKept(FlushedAll(store)[k], k) && FlushedAll(store)[k] == Flushed(store[k]) {
      FlushedKept(store[k], k);
    }
  }

  /** The state freezes only by a flush that succeeded. */
  lemma FreezesByFlush(s: State, t: State, n: Name, c: Choice)
    requires Ready(s, n) && Guarantee(s, t, n) && DataEffect(s, t, n, c) && t.pc.Keys == s.pc.Keys
    ensures Frozen(t) ==> Frozen(s) || Flushes(s, n, c)
  {
    if k :| k in t.pc && t.pc[k].Stopping? && k != n {
      assert t.pc[k] == s.pc[k];
    }
  }

  lemma OneStoreKept(store: map<Name, Store>, n: Name, st: Store)
    requires n in store && StoreKept(st, n) && StoresKept(store)
    ensures StoresKept(store[n := st])
  {
  }

  lemma AllStoresKept(s: State, t: State, n: Name, c: Choice)
    requires Has(s, n) && StoresKept(s.store) && StorePhase(s, n) && DataEffect(s, t, n, c)
    ensures StoresKept(t.store)
  {
    if s.pc[n].Fetching? {
      FetchedKept(s.store[n], n);
      OneStoreKept(s.store, n, Fetched(s.store[n]));
    } else if s.pc[n].Announcing? {
      AnnouncedKept(s.store[n], n);
      OneStoreKept(s.store, n, Announced(s.store[n]));
    } else if Flushes(s, n, c) {
      FlushedAllKept(s.store);
    }
  }

  lemma PhaseKept(s: State, t: State, n: Name, c: Choice, k: Name)
    requires Ready(s, n) && StoresKept(s.store) && Guarantee(s, t, n) && DataEffect(s, t, n, c) &&
             t.pc.Keys == s.pc.Keys
    requires Has(s, k) && ThreadKept(s, k) && StorePhase(s, n) && StorePhase(s, k)
    requires Has(t, k)
    ensures StorePhase(t, k)
  {
    FreezesByFlush(s, t, n, c);
    if Flushes(s, n, c) {
      FlushedAllKept(s.store);
      assert !s.m.devices[k].suspendedAtPre;
    }
  }

  lemma SameNames(s: State, t: State, n: Name, c: Choice)
    requires Has(s, n) && Guarantee(s, t, n) && DataEffect(s, t, n, c)
    requires s.store.Keys == s.pc.Keys == s.m.devices.Keys
    ensures t.store.Keys == s.store.Keys && t.pc.Keys == s.pc.Keys && t.m.devices.Keys == s.m.devices.Keys
  {
  }

  lemma PhasesKept(s: State, t: State, n: Name, c: Choice)
    requires Ready(s, n) && StoresKept(s.store) && Guarantee(s, t, n) && DataEffect(s, t, n, c)
    requires s.store.Keys == s.pc.Keys == s.m.devices.Keys && Phases(s)
    requires forall k | k in s.pc :: ThreadKept(s, k)
    requires t.store.Keys == t.pc.Keys == t.m.devices.Keys == s.pc.Keys
    ensures Phases(t)
  {
    forall k | k in t.store ensures StorePhase(t, k) {
      PhaseKept(s, t, n, c, k);
    }
  }

  lemma ThreadKeepsData(s: State, n: Name, c: Choice)
    requires Control(s) && Data(s) && CanStep(s, n)
    ensures Data(StepThread(s, n, c))
  {
    assert LocksKept(s, n) && ThreadKept(s, n) && StorePhase(s, n);
    ThreadKeepsControl(s, n, c);
    ThreadEffect(s, n, c);
    DataKept(s, StepThread(s, n, c), n, c);
  }

  lemma DataKept(s: State, t: State, n: Name, c: Choice)
    requires Ready(s, n) && Data(s) && Guarantee(s, t, n) && DataEffect(s, t, n, c)
    requires forall k | k in s.pc :: ThreadKept(s, k)
    ensures Data(t)
  {
    SameNames(s, t, n, c);
    assert StorePhase(s, n);
    AllStoresKept(s, t, n, c);
    PhasesKept(s, t, n, c);
    assert n in t.m.devices;
  }

  // ----- every action -----

  /** The whole invariant. */
  ghost predicate Inv(s: State) {
    Control(s) && Data(s)
  }

  /** Control does not depend on what the stores hold. */
  lemma StoreActionKeepsControl(s: State, n: Name, st: Store)
    requires Control(s)
    ensures Control(SetStore(s, n, st))
  {
    var t := SetStore(s, n, st);
    forall k | k in t.pc ensures LocksKept(t, k) && ThreadKept(t, k) {
      assert LocksKept(s, k) && ThreadKept(s, k);
    }
  }

  lemma StorePhaseKept(s: State, n: Name, st: Store, k: Name)
    requires Has(s, n) && Has(s, k) && StorePhase(s, k) && st.fetched == s.store[n].fetched
    requires Frozen(s) ==> st.unflushed == {}
    requires st.dirty == s.store[n].dirty || !Frozen(s)
    requires s.m.devices[k].suspendedAtPre ==> Frozen(s)
    ensures StorePhase(SetStore(s, n, st), k)
  {
    assert Frozen(SetStore(s, n, st)) <==> Frozen(s);
  }

  lemma StorePhasesKept(s: State, n: Name, st: Store)
    requires s.store.Keys == s.pc.Keys == s.m.devices.Keys && Phases(s) && n in s.store
    requires st.fetched == s.store[n].fetched
    requires Frozen(s) ==> st.unflushed == {}
    requires st.dirty == s.store[n].dirty || !Frozen(s)
    requires forall k | k in s.pc && k in s.m.devices && s.m.devices[k].suspendedAtPre :: Frozen(s)
    ensures SetStore(s, n, st).store.Keys == s.store.Keys && Phases(SetStore(s, n, st))
  {
    var t := SetStore(s, n, st);
    forall k | k in t.store ensures StorePhase(t, k) {
      StorePhaseKept(s, n, st, k);
    }
  }

  lemma StoreActionKeepsData(s: State, n: Name, st: Store)
    requires Data(s) && n in s.store && StoreKept(st, n)
    requires st.fetched == s.store[n].fetched
    requires Frozen(s) ==> st.unflushed == {}
    requires st.dirty == s.store[n].dirty || !Frozen(s)
    requires forall k | k in s.pc && k in s.m.devices && s.m.devices[k].suspendedAtPre :: Frozen(s)
    ensures Data(SetStore(s, n, st))
  {
    OneStoreKept(s.store, n, st);
    StorePhasesKept(s, n, st);
  }

  lemma StoreActionKeepsInv(s: State, n: Name, st: Store)
    requires Inv(s) && n in s.store && StoreKept(st, n)
    requires st.fetched == s.store[n].fetched
    requires Frozen(s) ==> st.unflushed == {}
    requires st.dirty == s.store[n].dirty || !Frozen(s)
    ensures Inv(SetStore(s, n, st))
  {
    StoreActionKeepsControl(s, n, st);
    forall k | k in s.pc && k in s.m.devices && s.m.devices[k].suspendedAtPre ensures Frozen(s) {
      assert ThreadKept(s, k);
    }
    StoreActionKeepsData(s, n, st);
  }

  lemma InvIsWellFormed(s: State)
    requires Inv(s)
    ensures WellFormed(s)
  {
    forall n | n in s.store ensures StoreFormed(s.store[n]) {
      assert StoreKept(s.store[n], n);
    }
  }

  lemma InitShared(s: State)
    requires Init(s)
    ensures Shape(s) && SharedKept(s)
  {
    var n :| n in s.m.devices;
    assert !s.m.devices[n].sentDirty;
  }

  lemma InitThread(s: State, n: Name)
    requires Has(s, n) && s.pc[n] == Pre && FreshStatus(s.m.devices[n])
    requires s.m.readyKeys == {} && s.locks == Locks(Free, Free, Free, Free)
    ensures LocksKept(s, n) && ThreadKept(s, n)
  {
  }

  lemma InitControl(s: State)
    requires Init(s)
    ensures Control(s)
  {
    InitShared(s);
    forall n | n in s.pc ensures LocksKept(s, n) && ThreadKept(s, n) {
      InitThread(s, n);
    }
  }

  lemma InitData(s: State)
    requires Init(s)
    ensures Data(s)
  {
    forall k | k in s.store ensures StoreKept(s.store[k], k) {
      assert StoreFormed(s.store[k]);
    }
  }

  lemma RunningIsNotFrozen(s: State)
    requires Inv(s) && s.running
    ensures !Frozen(s)
  {
    forall k | k in s.pc ensures !s.pc[k].Stopping? {
      assert ThreadKept(s, k);
    }
  }

  lemma GuestKeepsInv(s: State, n: Name, b: nat, v: Block, seen: bool)
    requires Inv(s) && s.running && n in s.store && b < |s.store[n].guest|
    ensures |s.store[n].guest| == |s.store[n].src| && Inv(SetStore(s, n, Written(n, s.store[n], b, v, seen)))
  {
    RunningIsNotFrozen(s);
    assert StoreKept(s.store[n], n);
    WrittenKept(s.store[n], n, b, v, seen);
    StoreActionKeepsInv(s, n, Written(n, s.store[n], b, v, seen));
  }

  /** A move of the memory or the copies, given what it does to the one store it changes. */
  lemma MoveKeepsInv(s: State, n: Name, st: Store)
    requires Inv(s) && n in s.store && StoreKept(st, n)
    requires st.fetched == s.store[n].fetched && st.unflushed <= s.store[n].unflushed
    requires st.dirty == s.store[n].dirty || !Frozen(s)
    ensures Inv(SetStore(s, n, st))
  {
    assert StorePhase(s, n);
    StoreActionKeepsInv(s, n, st);
  }

  lemma WritebackKeepsInv(s: State, n: Name, b: nat)
    requires Inv(s) && n in s.store && b in s.store[n].unflushed
    ensures var st := s.store[n]; b < |st.guest| == |st.src| && Inv(SetStore(s, n, WrittenBack(st, b)))
  {
    assert StoreKept(s.store[n], n) && StorePhase(s, n);
    WrittenBackKept(s.store[n], n, b);
    MoveKeepsInv(s, n, WrittenBack(s.store[n], b));
  }

  lemma TearKeepsInv(s: State, n: Name, b: nat, v: Block)
    requires Inv(s) && n in s.store && b in s.store[n].unflushed
    ensures b < |s.store[n].src| && Inv(SetStore(s, n, Torn(s.store[n], b, v)))
  {
    assert StoreKept(s.store[n], n) && StorePhase(s, n);
    TornKept(s.store[n], n, b, v);
    MoveKeepsInv(s, n, Torn(s.store[n], b, v));
  }

  lemma TouchKeepsInv(s: State, n: Name, b: nat)
    requires Inv(s) && n in s.store && b < |s.store[n].src| && !Frozen(s)
    ensures Inv(SetStore(s, n, Touched(s.store[n], b)))
  {
    assert StoreKept(s.store[n], n);
    TouchedKept(s.store[n], n, b);
    MoveKeepsInv(s, n, Touched(s.store[n], b));
  }

  lemma ReadKeepsInv(s: State, n: Name, b: nat)
    requires Inv(s) && n in s.store && b in s.store[n].pending && b !in s.store[n].wire
    ensures b < |s.store[n].src| && Inv(SetStore(s, n, Read(s.store[n], b)))
  {
    assert StoreKept(s.store[n], n);
    ReadKept(s.store[n], n, b);
    MoveKeepsInv(s, n, Read(s.store[n], b));
  }

  lemma DeliverKeepsInv(s: State, n: Name, b: nat)
    requires Inv(s) && n in s.store && b in s.store[n].wire
    ensures b < |s.store[n].dst| && Inv(SetStore(s, n, Delivered(s.store[n], b)))
  {
    assert StoreKept(s.store[n], n);
    DeliveredKept(s.store[n], n, b);
    MoveKeepsInv(s, n, Delivered(s.store[n], b));
  }

  lemma ThreadKeepsInv(s: State, n: Name, c: Choice)
    requires Inv(s) && CanStep(s, n)
    ensures Inv(StepThread(s, n, c))
  {
    ThreadKeepsControl(s, n, c);
    ThreadKeepsData(s, n, c);
  }

  /** Every action keeps the invariant. */
  lemma ActionKeepsInv(s: State, a: Action)
    requires Inv(s) && Enabled(s, a)
    ensures Inv(Do(s, a))
  {
    match a
    case Thread(n, c) => ThreadKeepsInv(s, n, c);
    case GuestWrite(n, b, v, seen) => GuestKeepsInv(s, n, b, v, seen);
    case Writeback(n, b) => WritebackKeepsInv(s, n, b);
    case Tear(n, b, v) => TearKeepsInv(s, n, b, v);
    case Touch(n, b) => TouchKeepsInv(s, n, b);
    case ReadBlock(n, b) => ReadKeepsInv(s, n, b);
    case Deliver(n, b) => DeliverKeepsInv(s, n, b);
  }

  lemma RunStep(ss: seq<State>, acts: seq<Action>, i: nat)
    requires Run(ss, acts) && i < |acts|
    ensures Enabled(ss[i], acts[i]) && ss[i + 1] == Do(ss[i], acts[i])
  {
  }

  /** Every state of every run. */
  lemma {:induction false} RunKeepsInv(ss: seq<State>, acts: seq<Action>, i: nat)
    requires Run(ss, acts) && i < |ss|
    ensures Inv(ss[i])
  {
    if i == 0 {
      InitControl(ss[0]);
      InitData(ss[0]);
    } else {
      RunKeepsInv(ss, acts, i - 1);
      RunStep(ss, acts, i - 1);
      ActionKeepsInv(ss[i - 1], acts[i - 1]);
    }
  }
}
