/** The hooks proved for the classes are the uninterrupted runs of the concurrent system: a thread that steps alone
    through a hook, from free mutexes, changes the manager exactly as the hook's specification says and comes out
    where its answer says. */
module HandoverSolo {
  import opened Handover
  import opened HandoverSystem
  import opened Chains

  function Able(n: Name): State -> bool {
    (s: State) => CanStep(s, n)
  }

  /** One step of one thread, always with the same choice. */
  function Stepping(n: Name, c: Choice): State -> State {
    (s: State) => if CanStep(s, n) then StepThread(s, n, c) else s
  }

  /** From `s` the thread, stepping alone, comes to `t`. */
  ghost predicate Reaches(s: State, t: State, n: Name, c: Choice) {
    exists k: nat :: Throughout(Able(n), Stepping(n, c), s, k) && Repeat(Stepping(n, c), s, k) == t
  }

  lemma Then(s: State, t: State, u: State, n: Name, c: Choice)
    requires Reaches(s, t, n, c) && Reaches(t, u, n, c)
    ensures Reaches(s, u, n, c)
  {
    var ok, f := Able(n), Stepping(n, c);
    var j: nat :| Throughout(ok, f, s, j) && Repeat(f, s, j) == t;
    var k: nat :| Throughout(ok, f, t, k) && Repeat(f, t, k) == u;
    RepeatSplits(ok, f, s, j, k);
  }

  lemma Step(s: State, n: Name, c: Choice)
    requires CanStep(s, n)
    ensures Reaches(s, StepThread(s, n, c), n, c)
  {
    var ok, f := Able(n), Stepping(n, c);
    assert Throughout(ok, f, f(s), 0) && Repeat(f, f(s), 0) == f(s);
    assert Throughout(ok, f, s, 1) && Repeat(f, s, 1) == f(s);
  }

  lemma PreMoves(s: State, n: Name, c: Choice)
    requires CanStep(s, n) && (s.pc[n].Pre? || s.pc[n].Msyncing? || s.pc[n].ShortcutFlag? || s.pc[n].ShortcutInsert?)
    ensures Reaches(s, StepPre(s, n, c), n, c)
  {
    Step(s, n, c);
  }

  lemma DriverMoves(s: State, n: Name, c: Choice)
    requires CanStep(s, n) && (s.pc[n].Fetching? || s.pc[n].PostGet? || s.pc[n].Announcing? || s.pc[n].PostMigrate?)
    ensures Reaches(s, StepDriver(s, n, c), n, c)
  {
    Step(s, n, c);
  }

  lemma SentMoves(s: State, n: Name, c: Choice)
    requires CanStep(s, n) && (s.pc[n].SentWait? || s.pc[n].SentMark?)
    ensures Reaches(s, StepSent(s, n, c), n, c)
  {
    Step(s, n, c);
  }

  lemma TransferMoves(s: State, n: Name, c: Choice)
    requires CanStep(s, n)
    requires
      || s.pc[n].SentSuspendWait? || s.pc[n].SentSuspendRead?
      || s.pc[n].SentTransferWait? || s.pc[n].SentTransferTest? || s.pc[n].SentTransferring?
    ensures Reaches(s, StepTransfer(s, n, c), n, c)
  {
    Step(s, n, c);
  }

  lemma ThrottleMoves(s: State, n: Name, c: Choice)
    requires CanStep(s, n) && (s.pc[n].Delaying? || s.pc[n].DelayRead? || s.pc[n].DelayFull?)
    ensures Reaches(s, StepThrottle(s, n, c), n, c)
  {
    Step(s, n, c);
  }

  lemma CycleMoves(s: State, n: Name, c: Choice)
    requires CanStep(s, n) && (s.pc[n].Counting? || s.pc[n].MarkFlag? || s.pc[n].MarkInsert? || s.pc[n].CountReady?)
    ensures Reaches(s, StepCycle(s, n, c), n, c)
  {
    Step(s, n, c);
  }

  lemma SuspendMoves(s: State, n: Name, c: Choice)
    requires CanStep(s, n) && (s.pc[n].SuspendWait? || s.pc[n].SuspendTest? || s.pc[n].VMWait? || s.pc[n].VMTest?)
    ensures Reaches(s, StepSuspend(s, n, c), n, c)
  {
    Step(s, n, c);
  }

  lemma CallbackMoves(s: State, n: Name, c: Choice)
    requires CanStep(s, n) && (s.pc[n].Suspending? || s.pc[n].Flushing? || s.pc[n].Stopping? || s.pc[n].Finishing?)
    ensures Reaches(s, StepCallback(s, n, c), n, c)
  {
    Step(s, n, c);
  }

  /** A thread of a settled state, alone: its mutexes are free. */
  ghost predicate Alone(s: State, n: Name) {
    Has(s, n) && s.locks == Locks(Free, Free, Free, Free)
  }

  /** Where a hook's answer sends the thread. */
  function Exit(a: Answer, more: PC, less: PC): PC {
    if a.error != NoError then Failed else if a.more then more else less
  }

  // ----- what the steps leave, each named once -----

  /** The transfer of authority from manager `m`: once at most, and only when `due`. */
  predicate TransferDone(s: State, t: State, n: Name, c: Choice, m: Manager, due: bool) {
    && t.store == s.store
    && if due && !m.transferCompleted then
      && t.m == m.(transferCompleted := true, transfers := m.transfers + 1)
      && t.pc == s.pc[n := if c.out.transferOk then Ended else Failed]
    else t.m == m && t.pc == s.pc[n := Ended]
  }

  predicate MarkSentDone(s: State, t: State, n: Name, c: Choice)
    requires n in s.m.devices
  {
    var (m, e) := MarkSent(s.m, n, c.out.transferOk);
    t.m == m && t.pc == s.pc[n := if e == NoError then Ended else Failed] && t.store == s.store
  }

  predicate CycleDone(s: State, t: State, n: Name, c: Choice)
    requires n in s.m.devices && n in s.store
  {
    var (m, a) := SuspendIfAllReady(AfterCycle(s.m, n, s.store[n].listed), c.out);
    t.m == m && t.pc == s.pc[n := Exit(a, Pre, Ended)]
  }

  /** The suspend under its mutex, unless it has completed. */
  predicate SuspendOnceDone(s: State, t: State, n: Name, c: Choice) {
    if s.m.suspendCompleted then t.m == s.m && t.pc == s.pc[n := Pre]
    else
      var (v, e) := SuspendAndMsync(s.m.vm, c.out.suspendOk, c.out.msyncOk);
      t.m == SuspendDone(s.m.(vm := v)) && t.pc == s.pc[n := if e == NoError then Pre else Failed]
  }

  /** The VM state manager has come to `v` and returns `e`. */
  predicate VMReturns(s: State, t: State, n: Name, v: VM, e: Error) {
    t.m == s.m.(vm := v) && t.pc == s.pc[n := Finishing(e)]
  }

  function AfterSuspend(vm: VM, msyncOk: bool): (VM, Error) {
    if !msyncOk then (Called(vm, Msync(false)), CouldNotMsync) else (Stopped(Called(vm, Msync(true))), NoError)
  }

  function AfterBefore(vm: VM, out: Outcome): (VM, Error) {
    if !out.suspendOk then (Called(vm, Suspend(false)), CouldNotSuspend)
    else AfterSuspend(Called(vm, Suspend(true)), out.msyncOk)
  }

  lemma TransferThen(s: State, a: State, t: State, n: Name, c: Choice, m: Manager, due: bool)
    requires Reaches(s, a, n, c) && Reaches(a, t, n, c)
    requires n in a.pc && a.store == s.store && a.pc == s.pc[n := a.pc[n]] && TransferDone(a, t, n, c, m, due)
    ensures Reaches(s, t, n, c) && TransferDone(s, t, n, c, m, due)
  {
    Then(s, a, t, n, c);
  }

  lemma SuspendOnceThen(s: State, a: State, t: State, n: Name, c: Choice)
    requires Reaches(s, a, n, c) && Reaches(a, t, n, c)
    requires n in a.pc && a.m == s.m && a.pc == s.pc[n := a.pc[n]] && SuspendOnceDone(a, t, n, c)
    ensures Reaches(s, t, n, c) && SuspendOnceDone(s, t, n, c)
  {
    Then(s, a, t, n, c);
  }

  // ----- PreGetDirty -----

  lemma PreGetDirtyAlone(s: State, n: Name, c: Choice) returns (t: State)
    requires Alone(s, n) && s.pc[n] == Pre
    ensures Reaches(s, t, n, c) && Alone(t, n)
    ensures var (m, a) := PreGetDirty(s.m, n, c.out); t.m == m && t.pc == s.pc[n := Exit(a, Fetching, PostGet)]
    ensures t.store == s.store
  {
    var a := StepPre(s, n, c);
    PreMoves(s, n, c);
    if a.pc[n].Fetching? {
      t := a;
    } else if a.pc[n].Msyncing? {
      t := StepPre(a, n, c);
      PreMoves(a, n, c);
      Then(s, a, t, n, c);
    } else {
      t := ShortcutAlone(a, n, c);
      Then(s, a, t, n, c);
    }
  }

  lemma ShortcutAlone(s: State, n: Name, c: Choice) returns (t: State)
    requires Alone(s, n) && s.pc[n] == ShortcutFlag
    ensures Reaches(s, t, n, c) && Alone(t, n)
    ensures t.m == MarkReady(s.m, n) && t.pc == s.pc[n := PostGet] && t.store == s.store
  {
    t := StepPre(s, n, c);
    PreMoves(s, n, c);
    if !s.m.devices[n].ready {
      var a := t;
      t := StepPre(a, n, c);
      PreMoves(a, n, c);
      Then(s, a, t, n, c);
      assert t.pc == s.pc[n := PostGet];
    }
  }

  lemma MarkAlone(s: State, n: Name, c: Choice) returns (t: State)
    requires Alone(s, n) && s.pc[n] == MarkFlag
    ensures Reaches(s, t, n, c) && Alone(t, n)
    ensures t.m == MarkReady(s.m, n) && t.pc == s.pc[n := CountReady] && t.store == s.store
  {
    t := StepCycle(s, n, c);
    CycleMoves(s, n, c);
    if !s.m.devices[n].ready {
      var a := t;
      t := StepCycle(a, n, c);
      CycleMoves(a, n, c);
      Then(s, a, t, n, c);
      assert t.pc == s.pc[n := CountReady];
    }
  }

  // ----- markReadyDeviceSentDirty -----

  lemma MarkSentAlone(s: State, n: Name, c: Choice) returns (t: State)
    requires Alone(s, n) && s.pc[n] == SentWait
    ensures Reaches(s, t, n, c) && Alone(t, n)
    ensures MarkSentDone(s, t, n, c)
  {
    var a := StepSent(s, n, c);
    SentMoves(s, n, c);
    t := ScanAlone(a, n, c);
    Then(s, a, t, n, c);
    assert t.pc == s.pc[n := t.pc[n]];
  }

  lemma ScanAlone(s: State, n: Name, c: Choice) returns (t: State)
    requires Has(s, n) && s.pc[n] == SentMark && s.locks == Locks(By(n), Free, Free, Free)
    ensures Reaches(s, t, n, c) && Alone(t, n)
    ensures MarkSentDone(s, t, n, c)
  {
    t := StepSent(s, n, c);
    SentMoves(s, n, c);
    if n in s.m.readyKeys {
      t := SentAlone(s, n, c);
    }
  }

  lemma SentAlone(s: State, n: Name, c: Choice) returns (t: State)
    requires Has(s, n) && s.pc[n] == SentMark && s.locks == Locks(By(n), Free, Free, Free) && n in s.m.readyKeys
    ensures Reaches(s, t, n, c) && Alone(t, n)
    ensures MarkSentDone(s, t, n, c)
  {
    var marked := WithDevice(s.m, n, s.m.devices[n].(sentDirty := true));
    if AllSent(marked.devices) {
      t := LastSentAlone(s, n, c, marked);
    } else {
      t := StepSent(s, n, c);
      SentMoves(s, n, c);
    }
  }

  lemma LastSentAlone(s: State, n: Name, c: Choice, marked: Manager) returns (t: State)
    requires Has(s, n) && s.pc[n] == SentMark && s.locks == Locks(By(n), Free, Free, Free) && n in s.m.readyKeys
    requires marked == WithDevice(s.m, n, s.m.devices[n].(sentDirty := true)) && AllSent(marked.devices)
    ensures Reaches(s, t, n, c) && Alone(t, n)
    ensures TransferDone(s, t, n, c, marked, s.m.suspendCompleted)
  {
    var a := StepSent(s, n, c);
    SentMoves(s, n, c);
    t := TransferAlone(a, n, c);
    TransferThen(s, a, t, n, c, marked, s.m.suspendCompleted);
  }

  lemma TransferAlone(s: State, n: Name, c: Choice) returns (t: State)
    requires Has(s, n) && s.pc[n] == SentSuspendWait && s.locks == Locks(By(n), Free, Free, Free)
    ensures Reaches(s, t, n, c) && Alone(t, n)
    ensures TransferDone(s, t, n, c, s.m, s.m.suspendCompleted)
  {
    var a := StepTransfer(s, n, c);
    TransferMoves(s, n, c);
    t := ReadAlone(a, n, c);
    TransferThen(s, a, t, n, c, s.m, s.m.suspendCompleted);
  }

  lemma ReadAlone(s: State, n: Name, c: Choice) returns (t: State)
    requires Has(s, n) && s.pc[n] == SentSuspendRead && s.locks == Locks(By(n), By(n), Free, Free)
    ensures Reaches(s, t, n, c) && Alone(t, n)
    ensures TransferDone(s, t, n, c, s.m, s.m.suspendCompleted)
  {
    t := StepTransfer(s, n, c);
    TransferMoves(s, n, c);
    if s.m.suspendCompleted {
      var a := t;
      t := TestAlone(a, n, c);
      TransferThen(s, a, t, n, c, s.m, true);
    }
  }

  lemma TestAlone(s: State, n: Name, c: Choice) returns (t: State)
    requires Has(s, n) && s.pc[n] == SentTransferWait && s.locks == Locks(By(n), Free, Free, Free)
    ensures Reaches(s, t, n, c) && Alone(t, n)
    ensures TransferDone(s, t, n, c, s.m, true)
  {
    var a := StepTransfer(s, n, c);
    TransferMoves(s, n, c);
    t := CallAlone(a, n, c);
    TransferThen(s, a, t, n, c, s.m, true);
  }

  lemma CallAlone(s: State, n: Name, c: Choice) returns (t: State)
    requires Has(s, n) && s.pc[n] == SentTransferTest && s.locks == Locks(By(n), Free, Free, By(n))
    ensures Reaches(s, t, n, c) && Alone(t, n)
    ensures TransferDone(s, t, n, c, s.m, true)
  {
    t := StepTransfer(s, n, c);
    TransferMoves(s, n, c);
    if !s.m.transferCompleted {
      var a := t;
      t := StepTransfer(a, n, c);
      TransferMoves(a, n, c);
      Then(s, a, t, n, c);
      assert t.pc == s.pc[n := t.pc[n]];
    }
  }

  // ----- PostGetDirty -----

  lemma PostGetDirtyAlone(s: State, n: Name, c: Choice) returns (t: State)
    requires Alone(s, n) && s.pc[n] == PostGet
    ensures Reaches(s, t, n, c) && Alone(t, n)
    ensures var (m, a) := PostGetDirty(s.m, n, |s.store[n].fetched|, c.out);
            t.m == m && t.pc == s.pc[n := Exit(a, Announcing, Ended)]
    ensures t.store == s.store
  {
    var a := StepDriver(s, n, c);
    DriverMoves(s, n, c);
    assert |s.store[n].fetched| == 0 <==> s.store[n].fetched == {};
    if a.pc[n].Announcing? {
      t := a;
    } else {
      t := MarkSentAlone(a, n, c);
      Then(s, a, t, n, c);
      assert t.pc == s.pc[n := t.pc[n]];
    }
  }

  // ----- PostMigrateDirty -----

  lemma PostMigrateDirtyAlone(s: State, n: Name, c: Choice) returns (t: State)
    requires Alone(s, n) && s.pc[n] == PostMigrate
    ensures Reaches(s, t, n, c) && Alone(t, n)
    ensures var (m, a) := PostMigrateDirty(s.m, n, s.store[n].listed, c.out);
            t.m == m && t.pc == s.pc[n := Exit(a, Pre, Ended)]
  {
    var a := StepDriver(s, n, c);
    DriverMoves(s, n, c);
    if s.m.devices[n].suspendedAtPre {
      t := MarkSentAlone(a, n, c);
      Then(s, a, t, n, c);
      assert t.pc == s.pc[n := t.pc[n]];
    } else {
      t := RunningAlone(a, n, c);
      Then(s, a, t, n, c);
      assert t.pc == s.pc[n := t.pc[n]];
    }
  }

  lemma RunningAlone(s: State, n: Name, c: Choice) returns (t: State)
    requires Alone(s, n) && s.pc[n] == Delaying
    ensures Reaches(s, t, n, c) && Alone(t, n)
    ensures CycleDone(s, t, n, c)
  {
    var a := ThrottleAlone(s, n, c);
    t := CountedAlone(a, n, c);
    Then(s, a, t, n, c);
    assert t.pc == s.pc[n := t.pc[n]];
  }

  /** The throttle changes nothing, interrupted or not. */
  lemma ThrottleAlone(s: State, n: Name, c: Choice) returns (t: State)
    requires Alone(s, n) && s.pc[n] == Delaying
    ensures Reaches(s, t, n, c) && t == Goto(s, n, Counting)
  {
    t := StepThrottle(s, n, c);
    ThrottleMoves(s, n, c);
    if t.pc[n] == DelayRead {
      var a := t;
      t := InterruptedAlone(a, n, c);
      Then(s, a, t, n, c);
      assert t.pc == s.pc[n := Counting];
    }
  }

  lemma InterruptedAlone(s: State, n: Name, c: Choice) returns (t: State)
    requires Alone(s, n) && s.pc[n] == DelayRead
    ensures Reaches(s, t, n, c) && t == Goto(s, n, Counting)
  {
    t := StepThrottle(s, n, c);
    ThrottleMoves(s, n, c);
    if t.pc[n] == DelayFull {
      var a := t;
      t := StepThrottle(a, n, c);
      ThrottleMoves(a, n, c);
      Then(s, a, t, n, c);
      assert t.pc == s.pc[n := Counting];
    }
  }

  lemma CountedAlone(s: State, n: Name, c: Choice) returns (t: State)
    requires Alone(s, n) && s.pc[n] == Counting
    ensures Reaches(s, t, n, c) && Alone(t, n)
    ensures CycleDone(s, t, n, c)
  {
    var a := CycleAlone(s, n, c);
    t := CountAlone(a, n, c);
    Then(s, a, t, n, c);
    assert t.pc == s.pc[n := t.pc[n]];
  }

  lemma CycleAlone(s: State, n: Name, c: Choice) returns (t: State)
    requires Alone(s, n) && s.pc[n] == Counting
    ensures Reaches(s, t, n, c) && Alone(t, n)
    ensures t.m == AfterCycle(s.m, n, s.store[n].listed) && t.pc == s.pc[n := CountReady]
  {
    t := StepCycle(s, n, c);
    CycleMoves(s, n, c);
    if t.pc[n] == MarkFlag {
      var a := t;
      t := MarkAlone(a, n, c);
      Then(s, a, t, n, c);
      assert t.pc == s.pc[n := CountReady];
    }
  }

  lemma CountAlone(s: State, n: Name, c: Choice) returns (t: State)
    requires Alone(s, n) && s.pc[n] == CountReady
    ensures Reaches(s, t, n, c) && Alone(t, n)
    ensures var (m, a) := SuspendIfAllReady(s.m, c.out); t.m == m && t.pc == s.pc[n := Exit(a, Pre, Ended)]
  {
    if |s.m.readyKeys| == |s.m.devices| {
      t := FullCountAlone(s, n, c);
    } else {
      t := StepCycle(s, n, c);
      CycleMoves(s, n, c);
    }
  }

  lemma FullCountAlone(s: State, n: Name, c: Choice) returns (t: State)
    requires Alone(s, n) && s.pc[n] == CountReady && |s.m.readyKeys| == |s.m.devices|
    ensures Reaches(s, t, n, c) && Alone(t, n)
    ensures SuspendOnceDone(s, t, n, c)
  {
    var a := StepCycle(s, n, c);
    CycleMoves(s, n, c);
    t := SuspendAlone(a, n, c);
    SuspendOnceThen(s, a, t, n, c);
  }

  lemma SuspendAlone(s: State, n: Name, c: Choice) returns (t: State)
    requires Alone(s, n) && s.pc[n] == SuspendWait
    ensures Reaches(s, t, n, c) && Alone(t, n)
    ensures SuspendOnceDone(s, t, n, c)
  {
    var a := StepSuspend(s, n, c);
    SuspendMoves(s, n, c);
    t := SuspendTestAlone(a, n, c);
    SuspendOnceThen(s, a, t, n, c);
  }

  lemma SuspendTestAlone(s: State, n: Name, c: Choice) returns (t: State)
    requires Has(s, n) && s.pc[n] == SuspendTest && s.locks == Locks(Free, By(n), Free, Free)
    ensures Reaches(s, t, n, c) && Alone(t, n)
    ensures SuspendOnceDone(s, t, n, c)
  {
    t := StepSuspend(s, n, c);
    SuspendMoves(s, n, c);
    if !s.m.suspendCompleted {
      var a := t;
      t := CallbacksAlone(a, n, c);
      Then(s, a, t, n, c);
      assert t.pc == s.pc[n := t.pc[n]];
    }
  }

  lemma CallbacksAlone(s: State, n: Name, c: Choice) returns (t: State)
    requires Has(s, n) && s.pc[n] == VMWait && s.locks == Locks(Free, By(n), Free, Free)
    ensures Reaches(s, t, n, c) && Alone(t, n)
    ensures var (v, e) := SuspendAndMsync(s.m.vm, c.out.suspendOk, c.out.msyncOk);
            t.m == SuspendDone(s.m.(vm := v)) && t.pc == s.pc[n := if e == NoError then Pre else Failed]
  {
    var a := VMWaitAlone(s, n, c);
    t := FinishAlone(a, n, c);
    Then(s, a, t, n, c);
    assert t.pc == s.pc[n := t.pc[n]];
  }

  lemma VMWaitAlone(s: State, n: Name, c: Choice) returns (t: State)
    requires Has(s, n) && s.pc[n] == VMWait && s.locks == Locks(Free, By(n), Free, Free)
    ensures Reaches(s, t, n, c) && Has(t, n) && t.locks == Locks(Free, By(n), Free, Free)
    ensures var (v, e) := SuspendAndMsync(s.m.vm, c.out.suspendOk, c.out.msyncOk); VMReturns(s, t, n, v, e)
  {
    var a := StepSuspend(s, n, c);
    SuspendMoves(s, n, c);
    t := VMTestAlone(a, n, c);
    Then(s, a, t, n, c);
    assert t.pc == s.pc[n := t.pc[n]];
  }

  lemma FinishAlone(s: State, n: Name, c: Choice) returns (t: State)
    requires Has(s, n) && s.pc[n].Finishing? && s.locks == Locks(Free, By(n), Free, Free)
    ensures Reaches(s, t, n, c) && Alone(t, n)
    ensures t.m == SuspendDone(s.m) && t.pc == s.pc[n := if s.pc[n].error == NoError then Pre else Failed]
  {
    t := StepCallback(s, n, c);
    CallbackMoves(s, n, c);
  }

  lemma VMTestAlone(s: State, n: Name, c: Choice) returns (t: State)
    requires Has(s, n) && s.pc[n] == VMTest && s.locks == Locks(Free, By(n), By(n), Free)
    ensures Reaches(s, t, n, c) && Has(t, n) && t.locks == Locks(Free, By(n), Free, Free)
    ensures var (v, e) := SuspendAndMsync(s.m.vm, c.out.suspendOk, c.out.msyncOk); VMReturns(s, t, n, v, e)
  {
    if s.m.vm.suspended {
      t := StepSuspend(s, n, c);
      SuspendMoves(s, n, c);
    } else {
      t := VMStartAlone(s, n, c);
    }
  }

  lemma VMStartAlone(s: State, n: Name, c: Choice) returns (t: State)
    requires Has(s, n) && s.pc[n] == VMTest && s.locks == Locks(Free, By(n), By(n), Free) && !s.m.vm.suspended
    ensures Reaches(s, t, n, c) && Has(t, n) && t.locks == Locks(Free, By(n), Free, Free)
    ensures var (v, e) := AfterBefore(Before(s.m.vm), c.out); VMReturns(s, t, n, v, e)
  {
    var a := StepSuspend(s, n, c);
    SuspendMoves(s, n, c);
    t := AttemptAlone(a, n, c);
    Then(s, a, t, n, c);
    assert t.pc == s.pc[n := t.pc[n]];
  }

  lemma AttemptAlone(s: State, n: Name, c: Choice) returns (t: State)
    requires Has(s, n) && s.pc[n] == Suspending && s.locks == Locks(Free, By(n), By(n), Free)
    ensures Reaches(s, t, n, c) && Has(t, n) && t.locks == Locks(Free, By(n), Free, Free)
    ensures var (v, e) := AfterBefore(s.m.vm, c.out); VMReturns(s, t, n, v, e)
  {
    if c.out.suspendOk {
      t := SuspendedAlone(s, n, c);
    } else {
      t := StepCallback(s, n, c);
      CallbackMoves(s, n, c);
    }
  }

  lemma SuspendedAlone(s: State, n: Name, c: Choice) returns (t: State)
    requires Has(s, n) && s.pc[n] == Suspending && s.locks == Locks(Free, By(n), By(n), Free) && c.out.suspendOk
    ensures Reaches(s, t, n, c) && Has(t, n) && t.locks == Locks(Free, By(n), Free, Free)
    ensures var (v, e) := AfterSuspend(Called(s.m.vm, Suspend(true)), c.out.msyncOk); VMReturns(s, t, n, v, e)
  {
    var a := StepCallback(s, n, c);
    CallbackMoves(s, n, c);
    t := FlushAlone(a, n, c);
    Then(s, a, t, n, c);
    assert t.pc == s.pc[n := t.pc[n]];
  }

  lemma FlushAlone(s: State, n: Name, c: Choice) returns (t: State)
    requires Has(s, n) && s.pc[n] == Flushing && s.locks == Locks(Free, By(n), By(n), Free)
    ensures Reaches(s, t, n, c) && Has(t, n) && t.locks == Locks(Free, By(n), Free, Free)
    ensures var (v, e) := AfterSuspend(s.m.vm, c.out.msyncOk); VMReturns(s, t, n, v, e)
  {
    if c.out.msyncOk {
      var a := FlushedAlone(s, n, c);
      t := StopAlone(a, n, c);
      Then(s, a, t, n, c);
      assert t.pc == s.pc[n := t.pc[n]];
    } else {
      t := StepCallback(s, n, c);
      CallbackMoves(s, n, c);
    }
  }

  lemma FlushedAlone(s: State, n: Name, c: Choice) returns (t: State)
    requires Has(s, n) && s.pc[n] == Flushing && c.out.msyncOk && s.locks == Locks(Free, By(n), By(n), Free)
    ensures Reaches(s, t, n, c) && Has(t, n) && t.locks == s.locks
    ensures t.m == s.m.(vm := Called(s.m.vm, Msync(true))) && t.pc == s.pc[n := Stopping]
  {
    t := StepCallback(s, n, c);
    CallbackMoves(s, n, c);
  }

  lemma StopAlone(s: State, n: Name, c: Choice) returns (t: State)
    requires Has(s, n) && s.pc[n] == Stopping && s.locks == Locks(Free, By(n), By(n), Free)
    ensures Reaches(s, t, n, c) && Has(t, n) && t.locks == Locks(Free, By(n), Free, Free)
    ensures VMReturns(s, t, n, Stopped(s.m.vm), NoError)
  {
    t := StepCallback(s, n, c);
    CallbackMoves(s, n, c);
  }
}
