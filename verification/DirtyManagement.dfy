/** The dirty manager (dirty_manager.go): the hooks as methods on shared objects, run without interference.
    `HandoverSystem` gives the interleavings. */
module DirtyManagement {
  import opened Handover
  import opened VMState

  class DeviceStatus {
    const maxDirtyBlocks: int
    const minCycles: int
    const maxCycles: int
    var totalCycles: int
    var belowThreshold: int
    var ready: bool
    var sentDirty: bool
    var suspendedAtPre: bool

    ghost function Value(): Status
      reads this
    {
      Status(totalCycles, maxDirtyBlocks, belowThreshold, minCycles, maxCycles, ready, sentDirty, suspendedAtPre)
    }

    constructor (maxDirtyBlocks: int, minCycles: int, maxCycles: int)
      ensures FreshStatus(Value())
      ensures this.maxDirtyBlocks == maxDirtyBlocks && this.minCycles == minCycles && this.maxCycles == maxCycles
    {
      this.maxDirtyBlocks, this.minCycles, this.maxCycles := maxDirtyBlocks, minCycles, maxCycles;
      totalCycles, belowThreshold, ready, sentDirty, suspendedAtPre := 0, 0, false, false, false;
    }
  }

  class DirtyManager {
    const vmState: VMStateMgr
    const devices: map<Name, DeviceStatus>
    var readyDevices: map<Name, DeviceStatus>
    var suspendCompleted: bool
    var doneChannelClosed: bool
    var transferCompleted: bool
    ghost var transfers: nat

    ghost predicate Valid()
      reads this, vmState, devices.Values
    {
      && vmState.Valid()
      && devices != map[]
      && doneChannelClosed == suspendCompleted
      && (forall a, b | a in devices && b in devices && a != b :: devices[a] != devices[b])
      && (forall n | n in readyDevices :: n in devices && readyDevices[n] == devices[n])
    }

    ghost function Statuses(): (r: map<Name, Status>)
      reads devices.Values
      ensures r.Keys == devices.Keys
    {
      map n | n in devices :: devices[n].Value()
    }

    ghost function Value(): Manager
      reads this, vmState, devices.Values
    {
      Manager(vmState.Value(), Statuses(), readyDevices.Keys,
              suspendCompleted, doneChannelClosed, transferCompleted, transfers)
    }

    /** The objects of different devices are different, so a change to one is a change to one entry. */
    twostate lemma OneStatusChanged(name: Name)
      requires name in devices
      requires forall k | k in devices && k != name :: devices[k].Value() == old(devices[k].Value())
      ensures name in old(Statuses()) && old(Statuses())[name] == old(devices[name].Value())
      ensures Statuses() == old(Statuses())[name := devices[name].Value()]
    {
    }

    constructor (vmState: VMStateMgr, devices: map<Name, DeviceStatus>)
      requires vmState.Valid() && vmState.Value() == FreshVM(vmState.hasBefore, vmState.hasAfter)
      requires devices != map[]
      requires forall a, b | a in devices && b in devices && a != b :: devices[a] != devices[b]
      requires forall n | n in devices :: FreshStatus(devices[n].Value())
      ensures Valid() && FreshManager(Value())
      ensures this.vmState == vmState && this.devices == devices
    {
      this.vmState, this.devices := vmState, devices;
      readyDevices := map[];
      suspendCompleted, doneChannelClosed, transferCompleted := false, false, false;
      transfers := 0;
    }

    method PreGetDirty(name: Name, out: Outcome) returns (answer: Answer)
      requires Valid() && name in devices
      modifies this, devices.Values
      ensures Valid()
      ensures (Value(), answer) == Handover.PreGetDirty(old(Value()), name, out)
    {
      var isSuspended := SampleSuspended(name);
      if !isSuspended && name == MEMORY {
        if devices[name].maxCycles > 0 {
          var e := vmState.Msync(out.msyncOk);
          return Answer(true, e);
        } else {
          MarkDeviceReady(name, devices[name]);
          return Answer(false, NoError);
        }
      }
      return Answer(true, NoError);
    }

    method PostGetDirty(name: Name, blocks: seq<nat>, out: Outcome) returns (answer: Answer)
      requires Valid() && name in devices
      modifies this, devices.Values
      ensures Valid()
      ensures (Value(), answer) == Handover.PostGetDirty(old(Value()), name, |blocks|, out)
      ensures answer.more <==> blocks != [] || !old(devices[name].suspendedAtPre)
    {
      if |blocks| == 0 && devices[name].suspendedAtPre {
        var e := MarkReadyDeviceSentDirty(name, out);
        return Answer(false, e);
      }
      return Answer(true, NoError);
    }

    method PostMigrateDirty(name: Name, blocks: seq<nat>, out: Outcome) returns (answer: Answer)
      requires Valid() && name in devices
      modifies this, devices.Values, vmState
      ensures Valid()
      ensures (Value(), answer) == Handover.PostMigrateDirty(old(Value()), name, |blocks|, out)
    {
      if devices[name].suspendedAtPre {
        var e := MarkReadyDeviceSentDirty(name, out);
        return Answer(false, e);
      }
      var settled := CountCycle(name, |blocks|);
      if settled {
        MarkDeviceReady(name, devices[name]);
      }
      answer := SuspendWhenAllReady(out);
    }

    // ----- the parts of the hooks -----

    /** The first two lines of PreGetDirty. */
    method SampleSuspended(name: Name) returns (isSuspended: bool)
      requires Valid() && name in devices
      modifies devices[name]
      ensures Valid() && isSuspended == vmState.suspended
      ensures name in old(Statuses()) && devices[name].maxCycles == old(Statuses())[name].maxCycles
      ensures Value() == WithDevice(old(Value()), name, old(Statuses())[name].(suspendedAtPre := isSuspended))
    {
      isSuspended := vmState.CheckSuspendedVM();
      devices[name].suspendedAtPre := isSuspended;
      OneStatusChanged(name);
    }

    method MarkDeviceReady(name: Name, di: DeviceStatus)
      requires Valid() && name in devices && di == devices[name]
      modifies this`readyDevices, di`ready
      ensures Valid()
      ensures Value() == MarkReady(old(Value()), name)
    {
      if !di.ready {
        di.ready := true;
        readyDevices := readyDevices[name := di];
        OneStatusChanged(name);
        assert readyDevices.Keys == old(readyDevices).Keys + {name};
      }
    }

    /** The scan of `Devices`: whether every one is ready and has sent its list. */
    method AllDevicesSent() returns (all: bool)
      requires Valid()
      ensures all == AllSent(Value().devices) && Value() == old(Value())
    {
      var todo := devices.Keys;
      while todo != {}
        invariant todo <= devices.Keys
        invariant forall n | n in devices && n !in todo :: devices[n].ready && devices[n].sentDirty
        decreases todo
      {
        var n :| n in todo;
        if !devices[n].ready || !devices[n].sentDirty {
          assert n in Statuses() && Statuses()[n] == devices[n].Value();
          return false;
        }
        todo := todo - {n};
      }
      return true;
    }

    method MarkReadyDeviceSentDirty(name: Name, out: Outcome) returns (e: Error)
      requires Valid() && name in devices
      modifies this`transferCompleted, this`transfers, devices[name]
      ensures Valid()
      ensures (Value(), e) == MarkSent(old(Value()), name, out.transferOk)
    {
      if name !in readyDevices {
        return NoError;
      }
      SetSent(name);
      var all := AllDevicesSent();
      if !all {
        return NoError;
      }
      if !suspendCompleted {
        return NoError;
      }
      e := TransferOnce(out);
    }

    /** The test of the flag and the call of AuthorityTransfer. */
    method TransferOnce(out: Outcome) returns (e: Error)
      modifies this`transferCompleted, this`transfers
      ensures
        if old(transferCompleted) then Value() == old(Value()) && e == NoError
        else
          && Value() == old(Value()).(transferCompleted := true, transfers := old(transfers) + 1)
          && e == if out.transferOk then NoError else CouldNotTransfer
    {
      e := NoError;
      if !transferCompleted {
        transferCompleted := true;
        transfers := transfers + 1;
        if !out.transferOk {
          e := CouldNotTransfer;
        }
      }
      assert Statuses() == old(Statuses());
    }

    method SetSent(name: Name)
      requires Valid() && name in readyDevices
      modifies devices[name]
      ensures Valid()
      ensures name in old(Statuses()) &&
              Value() == WithDevice(old(Value()), name, old(Statuses())[name].(sentDirty := true))
    {
      readyDevices[name].sentDirty := true;
      OneStatusChanged(name);
    }

    /** The counters of one cycle, and whether they make the device ready. */
    method CountCycle(name: Name, dirty: nat) returns (settled: bool)
      requires Valid() && name in devices
      modifies devices[name]
      ensures Valid() && name in old(Statuses())
      ensures Value() == WithDevice(old(Value()), name, Counted(old(Statuses())[name], dirty))
      ensures settled == CycleSettles(old(Statuses())[name], dirty)
    {
      var di := devices[name];
      di.totalCycles := di.totalCycles + 1;
      if dirty < di.maxDirtyBlocks {
        di.belowThreshold := di.belowThreshold + 1;
        settled := di.belowThreshold > di.minCycles;
      } else if di.totalCycles >= di.maxCycles {
        settled := true;
      } else {
        di.belowThreshold := 0;
        settled := false;
      }
      assert di.Value() == Counted(old(di.Value()), dirty);
      OneStatusChanged(name);
    }

    /** The suspend, its flag and its channel; `suspendCompleted` is set whether or not the suspend worked. */
    method SuspendOnce(out: Outcome) returns (e: Error)
      requires Valid() && !suspendCompleted
      modifies this`suspendCompleted, this`doneChannelClosed, vmState
      ensures Valid()
      ensures
        var (vm, error) := Handover.SuspendAndMsync(old(vmState.Value()), out.suspendOk, out.msyncOk);
        e == error && Value() == SuspendDone(old(Value()).(vm := vm))
    {
      e := vmState.SuspendAndMsync(out.suspendOk, out.msyncOk);
      suspendCompleted := true;
      assert !doneChannelClosed; // closing a closed channel would panic
      doneChannelClosed := true;
      assert Statuses() == old(Statuses());
    }

    method SuspendWhenAllReady(out: Outcome) returns (answer: Answer)
      requires Valid()
      modifies this`suspendCompleted, this`doneChannelClosed, vmState
      ensures Valid()
      ensures (Value(), answer) == SuspendIfAllReady(old(Value()), out)
    {
      assert |Statuses()| == |Statuses().Keys| == |devices.Keys| == |devices|;
      answer := Answer(true, NoError);
      if |readyDevices| == |devices| {
        if !suspendCompleted {
          var e := SuspendOnce(out);
          if e != NoError {
            answer := Answer(true, CouldNotSuspendAndMsync(e));
          }
        }
      }
    }
  }

  // ----- setting up the table of devices (migrations.go:514-522) -----

  datatype MigrateToDevice = MigrateToDevice(name: Name, maxDirtyBlocks: int, minCycles: int, maxCycles: int)

  /** The position of the last entry for a name. */
  ghost predicate LastOf(list: seq<MigrateToDevice>, i: nat) {
    i < |list| && forall j :: i < j < |list| ==> list[j].name != list[i].name
  }

  /** The table has one fresh status per name, taken from the last entry with that name. */
  method DirtyDevices(list: seq<MigrateToDevice>) returns (table: map<Name, DeviceStatus>)
    ensures forall n :: n in table <==> exists i :: 0 <= i < |list| && list[i].name == n
    ensures forall a, b | a in table && b in table && a != b :: table[a] != table[b]
    ensures forall n | n in table :: fresh(table[n]) && FreshStatus(table[n].Value())
    ensures forall i: nat | LastOf(list, i) ::
              && list[i].name in table
              && table[list[i].name].maxDirtyBlocks == list[i].maxDirtyBlocks
              && table[list[i].name].minCycles == list[i].minCycles
              && table[list[i].name].maxCycles == list[i].maxCycles
  {
    table := map[];
    for k := 0 to |list|
      invariant forall n :: n in table <==> exists i :: 0 <= i < k && list[i].name == n
      invariant forall a, b | a in table && b in table && a != b :: table[a] != table[b]
      invariant forall n | n in table :: fresh(table[n]) && FreshStatus(table[n].Value())
      invariant forall i: nat | i < k && forall j :: i < j < k ==> list[j].name != list[i].name ::
              && list[i].name in table
              && table[list[i].name].maxDirtyBlocks == list[i].maxDirtyBlocks
              && table[list[i].name].minCycles == list[i].minCycles
              && table[list[i].name].maxCycles == list[i].maxCycles
    {
      var d := list[k];
      var status := new DeviceStatus(d.maxDirtyBlocks, d.minCycles, d.maxCycles);
      table := table[d.name := status];
    }
  }
}
