/** The values of the live-migration handover, and what each hook does to them when nothing interferes.

    Two other modules use these definitions: `DirtyManagement` proves that the classes compute them, and
    `HandoverSystem` builds the atomic steps of the concurrent protocol from the small ones. */
module Handover {

  type Name = string

  /** The device whose pages the guest maps directly. */
  const MEMORY: Name := "memory"

  /** How one call of the runtime turned out; the runtime itself is not modelled. */
  datatype Outcome = Outcome(suspendOk: bool, msyncOk: bool, transferOk: bool)

  datatype Error =
    | NoError
    | CouldNotSuspend
    | CouldNotMsync
    | CouldNotSuspendAndMsync(cause: Error)
    | CouldNotTransfer

  /** What a hook returns to its caller. */
  datatype Answer = Answer(more: bool, error: Error)

  /** The callbacks `SuspendAndMsync` makes, in the order it makes them. */
  datatype Callback = BeforeSuspend | Suspend(ok: bool) | Msync(ok: bool) | AfterSuspend

  datatype VM = VM(hasBefore: bool, hasAfter: bool, suspended: bool, channelClosed: bool, callbacks: seq<Callback>)

  datatype Status = Status(
    totalCycles: int,
    maxDirtyBlocks: int,
    belowThreshold: int,
    minCycles: int,
    maxCycles: int,
    ready: bool,
    sentDirty: bool,
    suspendedAtPre: bool)

  datatype Manager = Manager(
    vm: VM,
    devices: map<Name, Status>,
    readyKeys: set<Name>,
    suspendCompleted: bool,
    doneChannelClosed: bool,
    transferCompleted: bool,
    transfers: nat)

  // ----- the virtual machine's state -----

  function FreshVM(hasBefore: bool, hasAfter: bool): VM {
    VM(hasBefore, hasAfter, false, false, [])
  }

  function Before(v: VM): VM {
    if v.hasBefore then v.(callbacks := v.callbacks + [BeforeSuspend]) else v
  }

  function Called(v: VM, c: Callback): VM {
    v.(callbacks := v.callbacks + [c])
  }

  /** The end of a successful attempt: the hook, the flag and the channel. */
  function Stopped(v: VM): VM {
    var w := if v.hasAfter then v.(callbacks := v.callbacks + [AfterSuspend]) else v;
    w.(suspended := true, channelClosed := true)
  }

  function SuspendAndMsync(v: VM, suspendOk: bool, msyncOk: bool): (VM, Error) {
    if v.suspended then (v, NoError)
    else
      var s := Called(Before(v), Suspend(suspendOk));
      if !suspendOk then (s, CouldNotSuspend)
      else
        var m := Called(s, Msync(msyncOk));
        if !msyncOk then (m, CouldNotMsync) else (Stopped(m), NoError)
  }

  // ----- the dirty manager's small steps -----

  function WithDevice(m: Manager, n: Name, d: Status): Manager {
    m.(devices := m.devices[n := d])
  }

  function Flagged(d: Status): Status {
    d.(ready := true)
  }

  function Inserted(m: Manager, n: Name): Manager {
    m.(readyKeys := m.readyKeys + {n})
  }

  /** Every device is in `ReadyDevices`. */
  ghost predicate AllReady(devices: map<Name, Status>, readyKeys: set<Name>) {
    forall n | n in devices :: n in readyKeys
  }

  /** The ready count test: as many ready keys as devices means all of them. */
  lemma CountMeansAll(devices: map<Name, Status>, readyKeys: set<Name>)
    requires readyKeys <= devices.Keys
    ensures |readyKeys| == |devices| <==> AllReady(devices, readyKeys)
  {
    var rest := devices.Keys - readyKeys;
    assert devices.Keys == readyKeys + rest;
    assert |devices| == |readyKeys| + |rest|;
    if AllReady(devices, readyKeys) {
      assert rest == {};
    }
  }

  predicate AllSent(devices: map<Name, Status>) {
    forall n | n in devices :: devices[n].ready && devices[n].sentDirty
  }

  function SuspendDone(m: Manager): Manager {
    m.(suspendCompleted := true, doneChannelClosed := true)
  }

  /** One counted cycle over `dirty` blocks. */
  function Counted(d: Status, dirty: nat): Status {
    var t := d.(totalCycles := d.totalCycles + 1);
    if dirty < d.maxDirtyBlocks then t.(belowThreshold := d.belowThreshold + 1)
    else if t.totalCycles >= d.maxCycles then t
    else t.(belowThreshold := 0)
  }

  /** Whether that cycle makes the device ready. */
  predicate CycleSettles(d: Status, dirty: nat) {
    if dirty < d.maxDirtyBlocks then d.belowThreshold + 1 > d.minCycles
    else d.totalCycles + 1 >= d.maxCycles
  }

  // ----- the hooks, run without interference -----

  function MarkReady(m: Manager, n: Name): Manager
    requires n in m.devices
  {
    if m.devices[n].ready then m
    else Inserted(WithDevice(m, n, Flagged(m.devices[n])), n)
  }

  function MarkSent(m: Manager, n: Name, transferOk: bool): (Manager, Error)
    requires n in m.devices
  {
    if n !in m.readyKeys then (m, NoError)
    else
      var s := WithDevice(m, n, m.devices[n].(sentDirty := true));
      if AllSent(s.devices) && s.suspendCompleted && !s.transferCompleted then
        (s.(transferCompleted := true, transfers := s.transfers + 1),
         if transferOk then NoError else CouldNotTransfer)
      else (s, NoError)
  }

  function PreGetDirty(m: Manager, n: Name, out: Outcome): (Manager, Answer)
    requires n in m.devices
  {
    var s := WithDevice(m, n, m.devices[n].(suspendedAtPre := m.vm.suspended));
    if !m.vm.suspended && n == MEMORY then
      if m.devices[n].maxCycles > 0 then
        (s, Answer(true, if out.msyncOk then NoError else CouldNotMsync))
      else (MarkReady(s, n), Answer(false, NoError))
    else (s, Answer(true, NoError))
  }

  function PostGetDirty(m: Manager, n: Name, dirty: nat, out: Outcome): (Manager, Answer)
    requires n in m.devices
  {
    if dirty == 0 && m.devices[n].suspendedAtPre then
      var (s, e) := MarkSent(m, n, out.transferOk);
      (s, Answer(false, e))
    else (m, Answer(true, NoError))
  }

  function AfterCycle(m: Manager, n: Name, dirty: nat): Manager
    requires n in m.devices
  {
    var c := WithDevice(m, n, Counted(m.devices[n], dirty));
    if CycleSettles(m.devices[n], dirty) then MarkReady(c, n) else c
  }

  function SuspendIfAllReady(m: Manager, out: Outcome): (Manager, Answer) {
    if |m.readyKeys| == |m.devices| && !m.suspendCompleted then
      var (v, e) := SuspendAndMsync(m.vm, out.suspendOk, out.msyncOk);
      (SuspendDone(m.(vm := v)), Answer(true, if e == NoError then NoError else CouldNotSuspendAndMsync(e)))
    else (m, Answer(true, NoError))
  }

  function PostMigrateDirty(m: Manager, n: Name, dirty: nat, out: Outcome): (Manager, Answer)
    requires n in m.devices
  {
    if m.devices[n].suspendedAtPre then
      var (s, e) := MarkSent(m, n, out.transferOk);
      (s, Answer(false, e))
    else SuspendIfAllReady(AfterCycle(m, n, dirty), out)
  }

  // ----- the start of a migration -----

  predicate FreshStatus(d: Status) {
    d.totalCycles == 0 && d.belowThreshold == 0 && !d.ready && !d.sentDirty && !d.suspendedAtPre
  }

  predicate FreshManager(m: Manager) {
    && m.devices != map[]
    && m.readyKeys == {}
    && !m.suspendCompleted && !m.doneChannelClosed && !m.transferCompleted && m.transfers == 0
    && m.vm == FreshVM(m.vm.hasBefore, m.vm.hasAfter)
    && forall n | n in m.devices :: FreshStatus(m.devices[n])
  }
}
