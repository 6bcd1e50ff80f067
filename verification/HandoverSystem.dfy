/** The handover as a concurrent system: one thread per device, four mutexes, the running guest, and the
    copies in flight. Taking a mutex is a step of its own wherever the hook does more than one thing under it,
    and the unprotected `Ready` flag is written apart from the map entry that follows it, so a run of this
    system is an interleaving of the hooks. The scan over all devices is one step: the mutex held protects the
    sent flags and `Ready` never goes back to false.

    What the driver and the block layer do is assumed here and nowhere else:
      - a pass calls PreGetDirty, fetches, calls PostGetDirty, announces the list, calls PostMigrateDirty;
      - when PreGetDirty answers false the pass fetches nothing;
      - fetching returns every dirty block and clears the set; a write and its dirty mark are one step;
      - announcing the list, or copying what it lists, may fail, which is an error of the device;
      - announced blocks are copied later, in any order, one copy of a block at a time;
      - part of a changed page of the memory device may reach the device before the rest, marked dirty;
      - a block of a device may be marked dirty without having changed, until the machine is stopped and flushed;
      - a false from a later hook ends that device's loop; after an error a device does no more, the others may. */
module HandoverSystem {
  import opened Handover

  type Block = seq<bv8>

  datatype Lock = ReadyLock | SuspendLock | SuspendedLock | TransferLock

  datatype PC =
    // PreGetDirty
    | Pre | Msyncing | ShortcutFlag | ShortcutInsert
    // the driver, and the decisions at the start of the other two hooks
    | Fetching | PostGet | Announcing | PostMigrate
    // markReadyDeviceSentDirty
    | SentWait | SentMark | SentSuspendWait | SentSuspendRead | SentTransferWait | SentTransferTest | SentTransferring
    // the throttle and the counted cycle
    | Delaying | DelayRead | DelayFull | Counting | MarkFlag | MarkInsert | CountReady
    // the suspend, first in the dirty manager, then in the VM state manager
    | SuspendWait | SuspendTest | VMWait | VMTest | Suspending | Flushing | Stopping | Finishing(error: Error)
    | Ended | Failed

  /** One device's blocks. `guest` is what the machine sees, `src` what a reader of the source device sees; they differ
      only on `unflushed` pages, the changed ones that no dirty mark shows yet. `fetched` is the list a pass holds,
      `pending` the announced copies not read yet, `wire` the copies read but not delivered, `listed` the length of the
      last announced list. */
  datatype Store = Store(
    guest: seq<Block>, src: seq<Block>, dst: seq<Block>,
    unflushed: set<nat>, dirty: set<nat>, fetched: set<nat>,
    pending: multiset<nat>, wire: map<nat, Block>, listed: nat)

  datatype Owner = Free | By(n: Name)

  datatype Locks = Locks(ready: Owner, suspend: Owner, suspended: Owner, transfer: Owner)

  datatype State = State(m: Manager, pc: map<Name, PC>, locks: Locks, running: bool, store: map<Name, Store>)

  /** Choices a step leaves open: how callbacks turn out, whether the throttle is interrupted, whether a suspend that
      reports failure stopped the machine all the same, and whether the driver fails after the announcement. */
  datatype Choice = Choice(out: Outcome, interrupted: bool, stopped: bool, broken: bool)

  datatype Action =
    | Thread(n: Name, choice: Choice)
    // `seen`: readers of the memory device see the write at once, as they do when they read the process itself
    | GuestWrite(n: Name, b: nat, v: Block, seen: bool)
    | Writeback(n: Name, b: nat)
    | Tear(n: Name, b: nat, v: Block)
    | Touch(n: Name, b: nat)
    | ReadBlock(n: Name, b: nat)
    | Deliver(n: Name, b: nat)

  // ----- threads -----

  function OwnerOf(ls: Locks, l: Lock): Owner {
    match l
    case ReadyLock => ls.ready
    case SuspendLock => ls.suspend
    case SuspendedLock => ls.suspended
    case TransferLock => ls.transfer
  }

  /** The mutex the next step takes, if any. */
  predicate Wants(pc: PC, l: Lock) {
    match l
    case ReadyLock => pc.ShortcutInsert? || pc.SentWait? || pc.DelayRead? || pc.MarkInsert? || pc.CountReady?
    case SuspendLock => pc.SentSuspendWait? || pc.SuspendWait?
    case SuspendedLock => pc.Pre? || pc.VMWait?
    case TransferLock => pc.SentTransferWait?
  }

  /** The mutexes a thread keeps between two of its steps. */
  predicate Holds(pc: PC, l: Lock) {
    match l
    case ReadyLock =>
      || pc.SentMark? || pc.SentSuspendWait? || pc.SentSuspendRead?
      || pc.SentTransferWait? || pc.SentTransferTest? || pc.SentTransferring?
    case SuspendLock =>
      || pc.SentSuspendRead?
      || pc.SuspendTest? || pc.VMWait? || pc.VMTest? || pc.Suspending? || pc.Flushing? || pc.Stopping? || pc.Finishing?
    case SuspendedLock => pc.VMTest? || pc.Suspending? || pc.Flushing? || pc.Stopping?
    case TransferLock => pc.SentTransferTest?
  }

  predicate Finished(pc: PC) {
    pc.Ended? || pc.Failed?
  }

  predicate Blocked(s: State, n: Name)
    requires n in s.pc
  {
    || (Wants(s.pc[n], ReadyLock) && s.locks.ready != Free)
    || (Wants(s.pc[n], SuspendLock) && s.locks.suspend != Free)
    || (Wants(s.pc[n], SuspendedLock) && s.locks.suspended != Free)
    || (Wants(s.pc[n], TransferLock) && s.locks.transfer != Free)
  }

  function Goto(s: State, n: Name, pc: PC): State {
    s.(pc := s.pc[n := pc])
  }

  function WithReady(s: State, o: Owner): State {
    s.(locks := s.locks.(ready := o))
  }

  function WithSuspend(s: State, o: Owner): State {
    s.(locks := s.locks.(suspend := o))
  }

  function WithSuspended(s: State, o: Owner): State {
    s.(locks := s.locks.(suspended := o))
  }

  function WithTransfer(s: State, o: Owner): State {
    s.(locks := s.locks.(transfer := o))
  }

  function SetDevice(s: State, n: Name, d: Status): State {
    s.(m := WithDevice(s.m, n, d))
  }

  function SetStore(s: State, n: Name, st: Store): State {
    s.(store := s.store[n := st])
  }

  function Fetched(st: Store): Store {
    st.(fetched := st.dirty, dirty := {})
  }

  function Announced(st: Store): Store {
    st.(pending := st.pending + multiset(st.fetched), fetched := {}, listed := |st.fetched|)
  }

  function Flushed(st: Store): Store
    requires |st.guest| == |st.src|
  {
    st.(src := seq(|st.src|, i requires 0 <= i < |st.src| => if i in st.unflushed then st.guest[i] else st.src[i]),
        dirty := st.dirty + st.unflushed,
        unflushed := {})
  }

  function FlushedAll(store: map<Name, Store>): map<Name, Store> {
    map k | k in store :: if |store[k].guest| == |store[k].src| then Flushed(store[k]) else store[k]
  }

  predicate StoreFormed(st: Store) {
    && |st.guest| == |st.src| == |st.dst|
    && (forall b | b in st.unflushed :: b < |st.src|)
    && (forall b | b in st.dirty :: b < |st.src|)
    && (forall b | b in st.fetched :: b < |st.src|)
    && (forall b | b in st.pending :: b < |st.src|)
    && (forall b | b in st.wire :: b < |st.src|)
  }

  /** `n` names a device of the migration. */
  predicate Has(s: State, n: Name) {
    n in s.pc && n in s.m.devices && n in s.store
  }

  predicate WellFormed(s: State) {
    && s.m.devices != map[]
    && s.pc.Keys == s.m.devices.Keys
    && s.store.Keys == s.m.devices.Keys
    && forall n | n in s.store :: StoreFormed(s.store[n])
  }

  /** PreGetDirty (dirty_manager.go:48-68). */
  function StepPre(s: State, n: Name, c: Choice): State
    requires Has(s, n)
  {
    var d := s.m.devices[n];
    match s.pc[n]
    case Pre =>
      Goto(SetDevice(s, n, d.(suspendedAtPre := s.m.vm.suspended)), n,
           if !s.m.vm.suspended && n == MEMORY then (if d.maxCycles > 0 then Msyncing else ShortcutFlag) else Fetching)
    case Msyncing => Goto(s, n, if c.out.msyncOk then Fetching else Failed)
    case ShortcutFlag =>
      if d.ready then Goto(s, n, PostGet) else Goto(SetDevice(s, n, Flagged(d)), n, ShortcutInsert)
    case ShortcutInsert => Goto(s.(m := Inserted(s.m, n)), n, PostGet)
    case _ => s
  }

  /** The driver between the hooks, and the first decision of each later hook (dirty_manager.go:70-77, 125-135). */
  function StepDriver(s: State, n: Name, c: Choice): State
    requires Has(s, n)
  {
    var d := s.m.devices[n];
    match s.pc[n]
    case Fetching => Goto(SetStore(s, n, Fetched(s.store[n])), n, PostGet)
    case PostGet =>
      Goto(s, n, if s.store[n].fetched == {} && d.suspendedAtPre then SentWait else Announcing)
    case Announcing => Goto(SetStore(s, n, Announced(s.store[n])), n, if c.broken then Failed else PostMigrate)
    case PostMigrate => Goto(s, n, if d.suspendedAtPre then SentWait else Delaying)
    case _ => s
  }

  /** Marking the device as sent and scanning the others (dirty_manager.go:88-101). */
  function StepSent(s: State, n: Name, c: Choice): State
    requires Has(s, n)
  {
    var d := s.m.devices[n];
    match s.pc[n]
    case SentWait => Goto(WithReady(s, By(n)), n, SentMark)
    case SentMark =>
      if n !in s.m.readyKeys then Goto(WithReady(s, Free), n, Ended)
      else
        var t := SetDevice(s, n, d.(sentDirty := true));
        if AllSent(t.m.devices) then Goto(t, n, SentSuspendWait) else Goto(WithReady(t, Free), n, Ended)
    case _ => s
  }

  /** The decision to transfer authority (dirty_manager.go:103-122). */
  function StepTransfer(s: State, n: Name, c: Choice): State
    requires Has(s, n)
  {
    match s.pc[n]
    case SentSuspendWait => Goto(WithSuspend(s, By(n)), n, SentSuspendRead)
    case SentSuspendRead =>
      if s.m.suspendCompleted then Goto(WithSuspend(s, Free), n, SentTransferWait)
      else Goto(WithReady(WithSuspend(s, Free), Free), n, Ended)
    case SentTransferWait => Goto(WithTransfer(s, By(n)), n, SentTransferTest)
    case SentTransferTest =>
      if s.m.transferCompleted then Goto(WithReady(WithTransfer(s, Free), Free), n, Ended)
      else Goto(WithTransfer(s.(m := s.m.(transferCompleted := true)), Free), n, SentTransferring)
    case SentTransferring =>
      Goto(WithReady(s.(m := s.m.(transfers := s.m.transfers + 1)), Free), n,
           if c.out.transferOk then Ended else Failed)
    case _ => s
  }

  /** The throttle (dirty_manager.go:137-153). */
  function StepThrottle(s: State, n: Name, c: Choice): State
    requires Has(s, n)
  {
    var d := s.m.devices[n];
    match s.pc[n]
    case Delaying => Goto(s, n, if s.m.doneChannelClosed && c.interrupted then DelayRead else Counting)
    case DelayRead => Goto(s, n, if d.sentDirty then DelayFull else Counting)
    case DelayFull => Goto(s, n, Counting)
    case _ => s
  }

  /** The counted cycle and the ready count (dirty_manager.go:155-174). */
  function StepCycle(s: State, n: Name, c: Choice): State
    requires Has(s, n)
  {
    var d := s.m.devices[n];
    match s.pc[n]
    case Counting =>
      Goto(SetDevice(s, n, Counted(d, s.store[n].listed)), n,
           if CycleSettles(d, s.store[n].listed) then MarkFlag else CountReady)
    case MarkFlag =>
      if d.ready then Goto(s, n, CountReady) else Goto(SetDevice(s, n, Flagged(d)), n, MarkInsert)
    case MarkInsert => Goto(s.(m := Inserted(s.m, n)), n, CountReady)
    case CountReady => Goto(s, n, if |s.m.readyKeys| == |s.m.devices| then SuspendWait else Pre)
    case _ => s
  }

  /** Up to the suspend (dirty_manager.go:176-179, vm_state.go:66-75). */
  function StepSuspend(s: State, n: Name, c: Choice): State
    requires Has(s, n)
  {
    var vm := s.m.vm;
    match s.pc[n]
    case SuspendWait => Goto(WithSuspend(s, By(n)), n, SuspendTest)
    case SuspendTest =>
      if s.m.suspendCompleted then Goto(WithSuspend(s, Free), n, Pre) else Goto(s, n, VMWait)
    case VMWait => Goto(WithSuspended(s, By(n)), n, VMTest)
    case VMTest =>
      if vm.suspended then Goto(WithSuspended(s, Free), n, Finishing(NoError))
      else Goto(s.(m := s.m.(vm := Before(vm))), n, Suspending)
    case _ => s
  }

  /** The callbacks of the suspend and what follows them (vm_state.go:77-93, dirty_manager.go:181-190). */
  function StepCallback(s: State, n: Name, c: Choice): State
    requires Has(s, n)
  {
    var vm := s.m.vm;
    match s.pc[n]
    case Suspending =>
      var t := s.(m := s.m.(vm := Called(vm, Suspend(c.out.suspendOk))));
      if c.out.suspendOk then Goto(t.(running := false), n, Flushing)
      else Goto(WithSuspended(t.(running := s.running && !c.stopped), Free), n, Finishing(CouldNotSuspend))
    case Flushing =>
      var t := s.(m := s.m.(vm := Called(vm, Msync(c.out.msyncOk))));
      if c.out.msyncOk then Goto(t.(store := FlushedAll(s.store)), n, Stopping)
      else Goto(WithSuspended(t, Free), n, Finishing(CouldNotMsync))
    case Stopping => Goto(WithSuspended(s.(m := s.m.(vm := Stopped(vm))), Free), n, Finishing(NoError))
    case Finishing(e) =>
      Goto(WithSuspend(s.(m := SuspendDone(s.m)), Free), n, if e == NoError then Pre else Failed)
    case _ => s
  }

  function StepThread(s: State, n: Name, c: Choice): State
    requires Has(s, n)
  {
    match s.pc[n]
    case Pre | Msyncing | ShortcutFlag | ShortcutInsert => StepPre(s, n, c)
    case Fetching | PostGet | Announcing | PostMigrate => StepDriver(s, n, c)
    case SentWait | SentMark => StepSent(s, n, c)
    case SentSuspendWait | SentSuspendRead | SentTransferWait | SentTransferTest | SentTransferring =>
      StepTransfer(s, n, c)
    case Delaying | DelayRead | DelayFull => StepThrottle(s, n, c)
    case Counting | MarkFlag | MarkInsert | CountReady => StepCycle(s, n, c)
    case SuspendWait | SuspendTest | VMWait | VMTest => StepSuspend(s, n, c)
    case Suspending | Flushing | Stopping | Finishing(_) => StepCallback(s, n, c)
    case Ended | Failed => s
  }

  // ----- the guest and the copies -----

  function Written(n: Name, st: Store, b: nat, v: Block, seen: bool): Store
    requires b < |st.guest| == |st.src|
  {
    if n == MEMORY then
      st.(guest := st.guest[b := v], src := if seen then st.src[b := v] else st.src, unflushed := st.unflushed + {b})
    else st.(guest := st.guest[b := v], src := st.src[b := v], dirty := st.dirty + {b})
  }

  function WrittenBack(st: Store, b: nat): Store
    requires b < |st.guest| == |st.src|
  {
    st.(src := st.src[b := st.guest[b]], unflushed := st.unflushed - {b}, dirty := st.dirty + {b})
  }

  /** Part of an unflushed block has reached the device. */
  function Torn(st: Store, b: nat, v: Block): Store
    requires b < |st.src|
  {
    st.(src := st.src[b := v], dirty := st.dirty + {b})
  }

  function Touched(st: Store, b: nat): Store {
    st.(dirty := st.dirty + {b})
  }

  /** The machine is stopped and everything it wrote has reached the source devices. */
  predicate Frozen(s: State) {
    s.m.vm.suspended || exists k | k in s.pc :: s.pc[k].Stopping?
  }

  function Read(st: Store, b: nat): Store
    requires b < |st.src|
  {
    st.(pending := st.pending - multiset{b}, wire := st.wire[b := st.src[b]])
  }

  function Delivered(st: Store, b: nat): Store
    requires b in st.wire && b < |st.dst|
  {
    st.(dst := st.dst[b := st.wire[b]], wire := st.wire - {b})
  }

  predicate CanStep(s: State, n: Name) {
    Has(s, n) && !Finished(s.pc[n]) && !Blocked(s, n)
  }

  predicate Enabled(s: State, a: Action) {
    && WellFormed(s)
    && a.n in s.pc
    && match a
       case Thread(n, _) => CanStep(s, n)
       case GuestWrite(n, b, _, _) => s.running && b < |s.store[n].guest|
       case Writeback(n, b) => b in s.store[n].unflushed
       case Tear(n, b, _) => b in s.store[n].unflushed
       case Touch(n, b) => b < |s.store[n].src| && !Frozen(s)
       case ReadBlock(n, b) => b in s.store[n].pending && b !in s.store[n].wire
       case Deliver(n, b) => b in s.store[n].wire
  }

  function Do(s: State, a: Action): State
    requires Enabled(s, a)
  {
    match a
    case Thread(n, c) => StepThread(s, n, c)
    case GuestWrite(n, b, v, seen) => SetStore(s, n, Written(n, s.store[n], b, v, seen))
    case Writeback(n, b) => SetStore(s, n, WrittenBack(s.store[n], b))
    case Tear(n, b, v) => SetStore(s, n, Torn(s.store[n], b, v))
    case Touch(n, b) => SetStore(s, n, Touched(s.store[n], b))
    case ReadBlock(n, b) => SetStore(s, n, Read(s.store[n], b))
    case Deliver(n, b) => SetStore(s, n, Delivered(s.store[n], b))
  }

  // ----- runs -----

  /** A block is covered when a later flush, a later fetch or a copy still to be read will carry it. */
  predicate Covered(st: Store, b: nat) {
    b in st.unflushed || b in st.dirty || b in st.fetched || b in st.pending
  }

  /** The dirty phase starts after the first full copy: whatever the destination lacks is covered or on its way. */
  predicate Init(s: State) {
    && WellFormed(s)
    && FreshManager(s.m)
    && s.locks == Locks(Free, Free, Free, Free)
    && (forall n | n in s.pc :: s.pc[n] == Pre)
    && forall n | n in s.store ::
      && s.store[n].fetched == {}
      && (n != MEMORY ==> s.store[n].unflushed == {})
      && (forall b: nat | b < |s.store[n].src| && b !in s.store[n].unflushed ::
           s.store[n].guest[b] == s.store[n].src[b])
      && (forall b: nat | b < |s.store[n].src| && s.store[n].dst[b] != s.store[n].src[b] ::
           Covered(s.store[n], b) || b in s.store[n].wire)
      && (forall b | b in s.store[n].wire && s.store[n].wire[b] != s.store[n].src[b] :: Covered(s.store[n], b))
  }

  /** A run pairs each state with the action that leaves it. */
  predicate Run(ss: seq<State>, acts: seq<Action>) {
    && |ss| == |acts| + 1
    && Init(ss[0])
    && forall i | 0 <= i < |acts| :: Enabled(ss[i], acts[i]) && ss[i + 1] == Do(ss[i], acts[i])
  }
}
