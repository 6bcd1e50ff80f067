/** What the handover is for, over every run. */
module HandoverTheorems {
  import opened Handover
  import opened HandoverSystem
  import opened HandoverInvariants

  // ----- how states of one run relate -----

  /** What no step undoes. */
  ghost predicate Later(s: State, t: State) {
    && t.store.Keys == s.store.Keys
    && (!s.running ==> !t.running && forall n | n in s.store :: t.store[n].guest == s.store[n].guest)
    && (s.m.transferCompleted ==> t.m.transferCompleted)
    && s.m.transfers <= t.m.transfers
    && (s.m.suspendCompleted ==> t.m.suspendCompleted)
    && (s.m.suspendCompleted && !s.m.vm.suspended ==> !t.m.vm.suspended)
  }

  lemma LaterIsTransitive(s: State, t: State, u: State)
    requires Later(s, t) && Later(t, u)
    ensures Later(s, u)
  {
  }

  lemma GuestUntouched(s: State, t: State, n: Name, c: Choice)
    requires Has(s, n) && DataEffect(s, t, n, c)
    ensures t.store.Keys == s.store.Keys && forall k | k in s.store :: t.store[k].guest == s.store[k].guest
  {
  }

  lemma EffectIsLater(s: State, t: State, n: Name, c: Choice)
    requires Ready(s, n) && Guarantee(s, t, n) && DataEffect(s, t, n, c)
    ensures Later(s, t)
  {
    GuestUntouched(s, t, n, c);
  }

  lemma ThreadIsLater(s: State, n: Name, c: Choice)
    requires Inv(s) && CanStep(s, n)
    ensures Later(s, StepThread(s, n, c))
  {
    assert LocksKept(s, n) && ThreadKept(s, n);
    ThreadKeepsControl(s, n, c);
    ThreadEffect(s, n, c);
    EffectIsLater(s, StepThread(s, n, c), n, c);
  }

  lemma StoreIsLater(s: State, n: Name, st: Store)
    requires n in s.store && (s.running || st.guest == s.store[n].guest)
    ensures Later(s, SetStore(s, n, st))
  {
  }

  lemma ActionIsLater(s: State, a: Action)
    requires Inv(s) && Enabled(s, a)
    ensures Later(s, Do(s, a))
  {
    match a
    case Thread(n, c) => ThreadIsLater(s, n, c);
    case GuestWrite(n, b, v, seen) => StoreIsLater(s, n, Written(n, s.store[n], b, v, seen));
    case Writeback(n, b) => StoreIsLater(s, n, WrittenBack(s.store[n], b));
    case Tear(n, b, v) => StoreIsLater(s, n, Torn(s.store[n], b, v));
    case Touch(n, b) => StoreIsLater(s, n, Touched(s.store[n], b));
    case ReadBlock(n, b) => StoreIsLater(s, n, Read(s.store[n], b));
    case Deliver(n, b) => StoreIsLater(s, n, Delivered(s.store[n], b));
  }

  lemma NextIsLater(ss: seq<State>, acts: seq<Action>, i: nat)
    requires Run(ss, acts) && i < |acts|
    ensures Later(ss[i], ss[i + 1])
  {
    RunKeepsInv(ss, acts, i);
    ActionIsLater(ss[i], acts[i]);
  }

  lemma {:induction false} ChainIsLater(ss: seq<State>, i: nat, j: nat)
    requires i <= j < |ss|
    requires forall k :: 0 <= k < |ss| - 1 ==> Later(ss[k], ss[k + 1])
    ensures Later(ss[i], ss[j])
  {
    if i < j {
      ChainIsLater(ss, i, j - 1);
      assert Later(ss[j - 1], ss[j - 1 + 1]);
      LaterIsTransitive(ss[i], ss[j - 1], ss[j]);
    }
  }

  /** Any two states of a run, in order. */
  lemma RunIsLater(ss: seq<State>, acts: seq<Action>, i: nat, j: nat)
    requires Run(ss, acts) && i <= j < |ss|
    ensures Later(ss[i], ss[j])
  {
    forall k | 0 <= k < |ss| - 1 ensures Later(ss[k], ss[k + 1]) {
      NextIsLater(ss, acts, k);
    }
    ChainIsLater(ss, i, j);
  }

  /** Nothing announced is still on its way. */
  ghost predicate Drained(st: Store) {
    st.pending == multiset{} && st.wire == map[]
  }

  // ----- the image -----

  /** Once authority has passed, the source is stopped and flushed, every device has finished a pass that sampled
      it so, and the destination can differ from the guest's image only in blocks announced and still in flight. */
  lemma HandoverPreservesImage(ss: seq<State>, acts: seq<Action>, i: nat)
    requires Run(ss, acts) && i < |ss| && ss[i].m.transferCompleted
    ensures ss[i].m.vm.suspended && ss[i].m.suspendCompleted && !ss[i].running
    ensures forall n | n in ss[i].m.devices :: ss[i].m.devices[n].ready && ss[i].m.devices[n].sentDirty
    ensures forall n, b: nat | n in ss[i].store && b < |ss[i].store[n].guest| && b < |ss[i].store[n].dst| ::
              ss[i].store[n].dst[b] != ss[i].store[n].guest[b] ==>
                b in ss[i].store[n].pending || b in ss[i].store[n].wire
    ensures forall n | n in ss[i].store && Drained(ss[i].store[n]) ::
              ss[i].store[n].dst == ss[i].store[n].guest == ss[i].store[n].src
  {
    RunKeepsInv(ss, acts, i);
    TransferredSource(ss[i]);
    forall n | n in ss[i].store
      ensures forall b: nat | b < |ss[i].store[n].guest| && b < |ss[i].store[n].dst| ::
                ss[i].store[n].dst[b] != ss[i].store[n].guest[b] ==>
                  b in ss[i].store[n].pending || b in ss[i].store[n].wire
      ensures Drained(ss[i].store[n]) ==> ss[i].store[n].dst == ss[i].store[n].guest == ss[i].store[n].src
    {
      TransferredStore(ss[i], n);
    }
  }

  lemma TransferredSource(s: State)
    requires Inv(s) && s.m.transferCompleted
    ensures s.m.vm.suspended && s.m.suspendCompleted && !s.running && AllSent(s.m.devices)
  {
    var n :| n in s.m.devices;
    assert ThreadKept(s, n) && s.m.devices[n].sentDirty;
  }

  lemma TransferredDevice(s: State, n: Name)
    requires Inv(s) && s.m.transferCompleted && n in s.m.devices
    ensures Has(s, n) && s.m.devices[n].suspendedAtPre && !s.pc[n].Fetching?
    ensures StoreKept(s.store[n], n)
    ensures s.store[n].unflushed == {} && s.store[n].dirty == {} && s.store[n].fetched == {}
  {
    TransferredSource(s);
    assert StoreKept(s.store[n], n) && StorePhase(s, n) && ThreadKept(s, n);
    assert s.m.devices[n].sentDirty;
  }

  lemma TransferredStore(s: State, n: Name)
    requires Inv(s) && s.m.transferCompleted && n in s.store
    ensures var st := s.store[n]; |st.guest| == |st.src| == |st.dst|
    ensures var st := s.store[n]; forall b: nat | b < |st.guest| ::
              st.dst[b] != st.guest[b] ==> b in st.pending || b in st.wire
    ensures Drained(s.store[n]) ==> s.store[n].dst == s.store[n].guest == s.store[n].src
  {
    TransferredDevice(s, n);
    CleanStore(s.store[n], n);
  }

  lemma CleanStore(st: Store, n: Name)
    requires StoreKept(st, n) && st.unflushed == {} && st.dirty == {} && st.fetched == {}
    ensures |st.guest| == |st.src| == |st.dst|
    ensures forall b: nat | b < |st.guest| :: st.dst[b] != st.guest[b] ==> b in st.pending || b in st.wire
    ensures Drained(st) ==> st.dst == st.guest == st.src
  {
  }

  /** A machine that has stopped stays stopped, and its image with it. */
  lemma StoppedImageStands(ss: seq<State>, acts: seq<Action>, i: nat, j: nat)
    requires Run(ss, acts) && i <= j < |ss| && !ss[i].running
    ensures !ss[j].running && ss[j].store.Keys == ss[i].store.Keys
    ensures forall n | n in ss[i].store :: ss[j].store[n].guest == ss[i].store[n].guest
  {
    RunIsLater(ss, acts, i, j);
  }

  // ----- authority -----

  /** Authority is transferred at most once in any run. */
  lemma AuthorityAtMostOnce(ss: seq<State>, acts: seq<Action>, i: nat)
    requires Run(ss, acts) && i < |ss|
    ensures ss[i].m.transfers <= 1
    ensures ss[i].m.transfers == 1 ==> ss[i].m.vm.suspended && ss[i].m.suspendCompleted && !ss[i].running
  {
    RunKeepsInv(ss, acts, i);
    if ss[i].m.transfers == 1 {
      TransferredSource(ss[i]);
    }
  }

  /** It is transferred exactly once when every device's loop ends without an error. */
  lemma AuthorityExactlyOnce(ss: seq<State>, acts: seq<Action>, i: nat)
    requires Run(ss, acts) && i < |ss|
    requires forall n | n in ss[i].pc :: ss[i].pc[n] == Ended
    ensures ss[i].m.transfers == 1
  {
    RunKeepsInv(ss, acts, i);
    AllEndedTransferred(ss[i]);
  }

  lemma AllEndedTransferred(s: State)
    requires Control(s)
    requires forall n | n in s.pc :: s.pc[n] == Ended
    ensures s.m.transfers == 1
  {
    forall n | n in s.m.devices ensures s.m.devices[n].ready && s.m.devices[n].sentDirty {
      assert ThreadKept(s, n);
    }
    assert AllSent(s.m.devices);
  }

  /** The device that transfers authority is the last one: every other loop has already ended. */
  lemma LastDeviceTransfers(ss: seq<State>, acts: seq<Action>, i: nat, n: Name)
    requires Run(ss, acts) && i < |ss| && n in ss[i].pc && ss[i].pc[n] == SentTransferring
    ensures ss[i].m.transfers == 0
    ensures forall k | k in ss[i].pc && k != n :: ss[i].pc[k] == Ended
  {
    RunKeepsInv(ss, acts, i);
    assert ThreadKept(ss[i], n) && LocksKept(ss[i], n);
    forall k | k in ss[i].pc && k != n ensures ss[i].pc[k] == Ended {
      assert ThreadKept(ss[i], k) && LocksKept(ss[i], k);
      OthersEnded(ss[i], n, k);
    }
  }

  lemma OthersEnded(s: State, n: Name, k: Name)
    requires Has(s, n) && Has(s, k) && k != n && s.pc[n] == SentTransferring
    requires ThreadKept(s, n) && LocksKept(s, n) && ThreadKept(s, k) && LocksKept(s, k)
    ensures s.pc[k] == Ended
  {
    assert s.m.devices[k].sentDirty;
    assert !Holds(s.pc[k], ReadyLock);
  }

  /** A suspend or post-suspend msync that failed is never followed by a transfer of authority. */
  lemma FailedSuspendNeverTransfers(ss: seq<State>, acts: seq<Action>, i: nat, j: nat)
    requires Run(ss, acts) && i <= j < |ss|
    requires ss[i].m.suspendCompleted && !ss[i].m.vm.suspended
    ensures ss[j].m.suspendCompleted && !ss[j].m.vm.suspended
    ensures !ss[j].m.transferCompleted && ss[j].m.transfers == 0
  {
    RunIsLater(ss, acts, i, j);
    RunKeepsInv(ss, acts, j);
    if ss[j].m.transferCompleted {
      TransferredSource(ss[j]);
    }
  }

  // ----- what a device did before it was counted as sent -----

  /** How a device can come to a state in which its pass counts as suspended. */
  ghost predicate PassTraced(s: State, t: State, a: Action, n: Name) {
    n in t.m.devices && n in t.pc && t.m.devices[n].suspendedAtPre ==>
      && n in s.m.devices && n in s.pc
      && (if t.pc[n].Fetching?
          then
            || (a.Thread? && a.n == n && s.pc[n].Pre? && s.m.vm.suspended)
            || (s.m.devices[n].suspendedAtPre && s.pc[n].Fetching?)
          else s.m.devices[n].suspendedAtPre && (s.pc[n].Fetching? ==> a.Thread? && a.n == n))
  }

  lemma EffectIsTraced(s: State, t: State, a: Action, n: Name)
    requires a.Thread? && Has(s, a.n) && Guarantee(s, t, a.n) && DataEffect(s, t, a.n, a.choice)
    ensures PassTraced(s, t, a, n)
  {
  }

  lemma ActionIsTraced(s: State, a: Action, n: Name)
    requires Inv(s) && Enabled(s, a)
    ensures PassTraced(s, Do(s, a), a, n)
  {
    if a.Thread? {
      assert LocksKept(s, a.n) && ThreadKept(s, a.n);
      ThreadKeepsControl(s, a.n, a.choice);
      ThreadEffect(s, a.n, a.choice);
      EffectIsTraced(s, StepThread(s, a.n, a.choice), a, n);
    }
  }

  lemma NextIsTraced(ss: seq<State>, acts: seq<Action>, i: nat, n: Name)
    requires Run(ss, acts) && i < |acts|
    ensures PassTraced(ss[i], ss[i + 1], acts[i], n)
  {
    RunKeepsInv(ss, acts, i);
    ActionIsTraced(ss[i], acts[i], n);
  }

  /** A device whose pass counts as suspended sampled the flag after the suspend, at a step `j` of this run; if it
      has got past the fetch, it fetched at a later step `k`. */
  lemma {:induction false} PassBeganSuspended(ss: seq<State>, acts: seq<Action>, i: nat, n: Name)
    returns (j: nat, k: nat)
    requires Run(ss, acts) && i < |ss| && n in ss[i].m.devices && n in ss[i].pc && ss[i].m.devices[n].suspendedAtPre
    ensures j < i && acts[j].Thread? && acts[j].n == n && n in ss[j].pc && ss[j].pc[n] == Pre && ss[j].m.vm.suspended
    ensures !ss[i].pc[n].Fetching? ==>
              j < k < i && acts[k].Thread? && acts[k].n == n && n in ss[k].pc && ss[k].pc[n] == Fetching
  {
    if i == 0 {
      assert false;
    } else {
      NextIsTraced(ss, acts, i - 1, n);
      if ss[i - 1].m.devices[n].suspendedAtPre && !(ss[i].pc[n].Fetching? && !ss[i - 1].pc[n].Fetching?) {
        j, k := PassBeganSuspended(ss, acts, i - 1, n);
        if ss[i - 1].pc[n].Fetching? {
          k := i - 1;
        }
      } else {
        j, k := i - 1, 0;
      }
    }
  }

  /** Authority passes only after every device sampled and then fetched, in that order, after the suspend. */
  lemma FullPassAfterSuspension(ss: seq<State>, acts: seq<Action>, i: nat, n: Name) returns (j: nat, k: nat)
    requires Run(ss, acts) && i < |ss| && ss[i].m.transferCompleted && n in ss[i].m.devices
    ensures j < k < i && acts[j].Thread? && acts[k].Thread? && acts[j].n == acts[k].n == n
    ensures n in ss[j].pc && ss[j].pc[n] == Pre && ss[j].m.vm.suspended
    ensures n in ss[k].pc && ss[k].pc[n] == Fetching
  {
    RunKeepsInv(ss, acts, i);
    TransferredDevice(ss[i], n);
    j, k := PassBeganSuspended(ss, acts, i, n);
  }

  // ----- branches no run takes -----

  /** The miss in `ReadyDevices` (line 91), the early return (106), the second transfer (118), the full wait (152) and
      the repeated suspend (vm_state.go:69) never happen; a pass that began unsuspended has not sent its list. */
  lemma UnreachableBranches(ss: seq<State>, acts: seq<Action>, i: nat, n: Name)
    requires Run(ss, acts) && i < |ss| && n in ss[i].pc && n in ss[i].m.devices
    ensures ss[i].pc[n] == SentMark ==> n in ss[i].m.readyKeys
    ensures ss[i].pc[n] == SentSuspendRead ==> ss[i].m.suspendCompleted
    ensures ss[i].pc[n] == SentTransferTest ==> !ss[i].m.transferCompleted
    ensures ss[i].pc[n] == VMTest ==> !ss[i].m.vm.suspended
    ensures ss[i].pc[n] == DelayRead ==> !ss[i].m.devices[n].sentDirty
    ensures !ss[i].m.devices[n].suspendedAtPre ==> !ss[i].m.devices[n].sentDirty
  {
    RunKeepsInv(ss, acts, i);
    assert ThreadKept(ss[i], n) && LocksKept(ss[i], n);
  }

  /** The map of ready devices, the flags and the count agree: once the count is full every device is ready, and a
      suspended machine means that it is. */
  lemma ReadyCountIsExact(ss: seq<State>, acts: seq<Action>, i: nat)
    requires Run(ss, acts) && i < |ss|
    ensures ss[i].m.readyKeys <= ss[i].m.devices.Keys
    ensures forall n | n in ss[i].m.readyKeys :: ss[i].m.devices[n].ready
    ensures |ss[i].m.readyKeys| == |ss[i].m.devices| <==> ss[i].m.readyKeys == ss[i].m.devices.Keys
    ensures ss[i].m.vm.suspended ==> ss[i].m.readyKeys == ss[i].m.devices.Keys
    ensures ss[i].m.doneChannelClosed == ss[i].m.suspendCompleted
  {
    RunKeepsInv(ss, acts, i);
    CountMeansAll(ss[i].m.devices, ss[i].m.readyKeys);
    forall n | n in ss[i].m.readyKeys ensures ss[i].m.devices[n].ready {
      assert ThreadKept(ss[i], n);
    }
  }

  // ----- no deadlock -----

  function Rank(l: Lock): nat {
    match l
    case ReadyLock => 0
    case SuspendLock => 1
    case SuspendedLock => 2
    case TransferLock => 3
  }

  /** Mutexes are taken in one order. */
  lemma LocksAreOrdered(pc: PC, held: Lock, wanted: Lock)
    requires Holds(pc, held) && Wants(pc, wanted)
    ensures Rank(held) < Rank(wanted)
  {
  }

  lemma BlockedOn(s: State, n: Name) returns (l: Lock)
    requires n in s.pc && Blocked(s, n)
    ensures Wants(s.pc[n], l) && OwnerOf(s.locks, l).By?
  {
    if Wants(s.pc[n], ReadyLock) && s.locks.ready != Free {
      l := ReadyLock;
    } else if Wants(s.pc[n], SuspendLock) && s.locks.suspend != Free {
      l := SuspendLock;
    } else if Wants(s.pc[n], SuspendedLock) && s.locks.suspended != Free {
      l := SuspendedLock;
    } else {
      l := TransferLock;
    }
  }

  lemma OwnerHolds(s: State, l: Lock) returns (k: Name)
    requires Inv(s) && OwnerOf(s.locks, l).By?
    ensures k == OwnerOf(s.locks, l).n && Has(s, k) && Holds(s.pc[k], l)
  {
    k := OwnerOf(s.locks, l).n;
    assert LocksKept(s, k);
  }

  /** From the owner of a mutex, following what it waits for leads to a thread that can move. */
  lemma {:induction false} OwnerLeadsOn(s: State, l: Lock) returns (k: Name)
    requires Inv(s) && OwnerOf(s.locks, l).By?
    ensures CanStep(s, k)
    decreases 4 - Rank(l)
  {
    k := OwnerHolds(s, l);
    if Blocked(s, k) {
      var next := BlockedOn(s, k);
      LocksAreOrdered(s.pc[k], l, next);
      k := OwnerLeadsOn(s, next);
    }
  }

  /** While a loop is unfinished, some unfinished thread can move. */
  lemma NoDeadlock(ss: seq<State>, acts: seq<Action>, i: nat)
    requires Run(ss, acts) && i < |ss|
    requires exists n :: n in ss[i].pc && !Finished(ss[i].pc[n])
    ensures exists k :: CanStep(ss[i], k)
  {
    RunKeepsInv(ss, acts, i);
    var n :| n in ss[i].pc && !Finished(ss[i].pc[n]);
    if Blocked(ss[i], n) {
      var l := BlockedOn(ss[i], n);
      var k := OwnerLeadsOn(ss[i], l);
      assert CanStep(ss[i], k);
    } else {
      assert CanStep(ss[i], n);
    }
  }
}
