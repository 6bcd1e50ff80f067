/** What a device's own steps say about its passes, in every interleaving: what a fetch follows, that the list which is
    counted and announced is the one that was fetched, and where a pass that finds nothing ends. */
module HandoverPasses {
  import opened Handover
  import opened HandoverSystem
  import opened HandoverInvariants
  import opened HandoverTheorems
  import opened Chains

  // ----- the answers of the hooks -----

  /** A pass with nothing dirty after the suspend ends the loop here, with the device sent and an error only from the
      transfer it makes; any other pass goes on, and changes nothing. */
  lemma EmptyPassAnswer(m: Manager, n: Name, dirty: nat, out: Outcome)
    requires n in m.devices
    ensures var (t, answer) := PostGetDirty(m, n, dirty, out);
            if dirty == 0 && m.devices[n].suspendedAtPre then
              && !answer.more
              && n in t.devices && (n in m.readyKeys ==> t.devices[n].sentDirty)
              && t.transfers <= m.transfers + 1
              && (answer.error == if t.transfers > m.transfers && !out.transferOk then CouldNotTransfer else NoError)
            else t == m && answer == Answer(true, NoError)
  {
  }

  /** A pass of memory over a running machine either msyncs first, and fails if that fails, or is turned off: then there
      is nothing to fetch and memory is ready. Any other pass just goes on. */
  lemma PassBeginsAnswer(m: Manager, n: Name, out: Outcome)
    requires n in m.devices && (n in m.readyKeys <==> m.devices[n].ready)
    ensures var (t, answer) := PreGetDirty(m, n, out);
            var off := n == MEMORY && !m.vm.suspended && m.devices[n].maxCycles <= 0;
            && n in t.devices && t.devices[n].suspendedAtPre == m.vm.suspended
            && (answer.more <==> !off) && (off ==> t.devices[n].ready && n in t.readyKeys)
            && (answer.error != NoError <==> n == MEMORY && !m.vm.suspended && !off && !out.msyncOk)
  {
  }

  /** A later pass of a stopped machine ends the loop with the device sent; one of a running machine goes on, with an
      error exactly if it tried to suspend the machine and failed. */
  lemma PassEndsAnswer(m: Manager, n: Name, dirty: nat, out: Outcome)
    requires n in m.devices
    ensures var (t, answer) := PostMigrateDirty(m, n, dirty, out);
            && n in t.devices && (answer.more <==> !m.devices[n].suspendedAtPre)
            && (if answer.more then
                  && t.transfers == m.transfers
                  && (answer.error != NoError <==> t.vm.callbacks != m.vm.callbacks && !t.vm.suspended)
                  && (t.vm.suspended ==> m.vm.suspended || |t.readyKeys| == |t.devices|)
                else
                  && (n in m.readyKeys ==> t.devices[n].sentDirty)
                  && (answer.error ==
                      if t.transfers > m.transfers && !out.transferOk then CouldNotTransfer else NoError))
  {
    if !m.devices[n].suspendedAtPre {
      var c := AfterCycle(m, n, dirty);
      assert c.vm == m.vm && c.transfers == m.transfers;
      AttemptSeen(c.vm, out);
    }
  }

  lemma AttemptSeen(v: VM, out: Outcome)
    ensures var (w, e) := SuspendAndMsync(v, out.suspendOk, out.msyncOk);
            && (e != NoError <==> w.callbacks != v.callbacks && !w.suspended)
  {
    var (w, e) := SuspendAndMsync(v, out.suspendOk, out.msyncOk);
    assert v.suspended || |w.callbacks| > |v.callbacks|;
  }

  // ----- from one step of a device to its next -----

  /** What only a device's own thread changes. */
  datatype Own = Own(pc: PC, d: Status, fetched: set<nat>, listed: nat)

  function OwnOf(s: State, n: Name): Own
    requires Has(s, n)
  {
    Own(s.pc[n], s.m.devices[n], s.store[n].fetched, s.store[n].listed)
  }

  predicate Steps(a: Action, n: Name) {
    a.Thread? && a.n == n
  }

  lemma OtherThreadLeaves(s: State, t: State, k: Name, c: Choice, n: Name)
    requires Has(s, k) && Guarantee(s, t, k) && DataEffect(s, t, k, c) && Has(s, n) && n != k
    ensures Has(t, n) && OwnOf(t, n) == OwnOf(s, n)
  {
  }

  lemma ThreadLeaves(s: State, k: Name, c: Choice, n: Name)
    requires Inv(s) && CanStep(s, k) && Has(s, n) && n != k
    ensures Has(StepThread(s, k, c), n) && OwnOf(StepThread(s, k, c), n) == OwnOf(s, n)
  {
    assert LocksKept(s, k) && ThreadKept(s, k);
    ThreadKeepsControl(s, k, c);
    ThreadEffect(s, k, c);
    OtherThreadLeaves(s, StepThread(s, k, c), k, c, n);
  }

  lemma StoreActionLeaves(s: State, a: Action, n: Name)
    requires Enabled(s, a) && !a.Thread? && Has(s, n)
    ensures Has(Do(s, a), n) && OwnOf(Do(s, a), n) == OwnOf(s, n)
  {
  }

  lemma OthersLeave(s: State, a: Action, n: Name)
    requires Inv(s) && Enabled(s, a) && Has(s, n) && !Steps(a, n)
    ensures Has(Do(s, a), n) && OwnOf(Do(s, a), n) == OwnOf(s, n)
  {
    if a.Thread? {
      ThreadLeaves(s, a.n, a.choice, n);
    } else {
      StoreActionLeaves(s, a, n);
    }
  }

  lemma NextLeaves(ss: seq<State>, acts: seq<Action>, i: nat, n: Name)
    requires Run(ss, acts) && i < |acts| && Has(ss[i], n) && !Steps(acts[i], n)
    ensures Has(ss[i + 1], n) && OwnOf(ss[i + 1], n) == OwnOf(ss[i], n)
  {
    RunKeepsInv(ss, acts, i);
    RunStep(ss, acts, i);
    OthersLeave(ss[i], acts[i], n);
  }

  lemma StaysPut(ss: seq<State>, acts: seq<Action>, i: nat, j: nat, n: Name)
    requires Run(ss, acts) && i <= j < |ss| && Has(ss[i], n)
    requires forall k | i <= k < j :: !Steps(acts[k], n)
    ensures Has(ss[j], n) && OwnOf(ss[j], n) == OwnOf(ss[i], n)
  {
    var own := OwnOf(ss[i], n);
    ghost var put: State -> bool := (s: State) => Has(s, n) && OwnOf(s, n) == own;
    forall k | i <= k < j && put(ss[k]) ensures put(ss[k + 1]) {
      NextLeaves(ss, acts, k, n);
    }
    Stepwise(ss, put, i, j);
  }

  lemma RunHas(ss: seq<State>, acts: seq<Action>, i: nat, j: nat, n: Name)
    requires Run(ss, acts) && i < |ss| && j < |ss| && n in ss[i].pc
    ensures Has(ss[i], n) && Has(ss[j], n)
  {
    RunKeepsInv(ss, acts, i);
    RunKeepsInv(ss, acts, j);
    RunIsLater(ss, acts, 0, i);
    RunIsLater(ss, acts, 0, j);
  }

  /** Step `l` is the device's last before state `i`. */
  predicate LastStep(acts: seq<Action>, n: Name, l: nat, i: nat)
    requires i <= |acts|
  {
    l < i && Steps(acts[l], n) && forall k | l < k < i :: !Steps(acts[k], n)
  }

  lemma {:induction false} LastOrNone(acts: seq<Action>, n: Name, i: nat) returns (l: nat)
    requires i <= |acts|
    ensures LastStep(acts, n, l, i) || forall k | 0 <= k < i :: !Steps(acts[k], n)
  {
    l := 0;
    if i > 0 {
      if Steps(acts[i - 1], n) {
        l := i - 1;
      } else {
        l := LastOrNone(acts, n, i - 1);
      }
    }
  }

  /** What the step `l` of a device left is what state `i` has. */
  ghost predicate CameFrom(ss: seq<State>, acts: seq<Action>, n: Name, l: nat, i: nat)
    requires |ss| == |acts| + 1 && i < |ss|
  {
    && LastStep(acts, n, l, i) && CanStep(ss[l], n) && Has(ss[l + 1], n) && Has(ss[i], n)
    && ss[l + 1] == StepThread(ss[l], n, acts[l].choice) && OwnOf(ss[i], n) == OwnOf(ss[l + 1], n)
  }

  lemma StepBefore(ss: seq<State>, acts: seq<Action>, i: nat, n: Name) returns (l: nat)
    requires Run(ss, acts) && i < |ss| && n in ss[i].pc && ss[i].pc[n] != Pre
    ensures CameFrom(ss, acts, n, l, i)
  {
    RunHas(ss, acts, i, 0, n);
    l := LastOrNone(acts, n, i);
    if LastStep(acts, n, l, i) {
      RunHas(ss, acts, i, l + 1, n);
      RunStep(ss, acts, l);
      StaysPut(ss, acts, l + 1, i, n);
    } else {
      StaysPut(ss, acts, 0, i, n);
      assert false;
    }
  }

  // ----- where one step leads -----

  predicate Throttled(pc: PC) {
    pc.Delaying? || pc.DelayRead? || pc.DelayFull?
  }

  /** Which step leads to each place between the sample of the flag and the count, and what it brings along. */
  predicate Led(n: Name, o: Own, dirty: set<nat>, suspended: bool, msyncOk: bool, t: Own) {
    match t.pc
    case Fetching =>
      || (o.pc.Pre? && (n != MEMORY || suspended) && t.d.suspendedAtPre == suspended)
      || (o.pc.Msyncing? && msyncOk && t.d == o.d)
    case Msyncing => o.pc.Pre? && n == MEMORY && !suspended && t.d.maxCycles > 0 && !t.d.suspendedAtPre
    case ShortcutFlag =>
      o.pc.Pre? && n == MEMORY && !suspended && t.d.maxCycles <= 0 && t.fetched == o.fetched
    case ShortcutInsert => o.pc.ShortcutFlag? && t.d == Flagged(o.d) && t.fetched == o.fetched
    case PostGet =>
      || (o.pc.Fetching? && t.fetched == dirty)
      || (o.pc.ShortcutFlag? && o.d.ready && t.d == o.d && t.fetched == o.fetched)
      || (o.pc.ShortcutInsert? && t.d == o.d && t.fetched == o.fetched)
    case Announcing =>
      o.pc.PostGet? && t.d == o.d && t.fetched == o.fetched && (t.fetched != {} || !t.d.suspendedAtPre)
    case PostMigrate => o.pc.Announcing? && t.d == o.d && t.listed == |o.fetched|
    case Delaying | DelayRead | DelayFull | Counting =>
      (o.pc.PostMigrate? || Throttled(o.pc)) && t.d == o.d && t.listed == o.listed
    case _ => true
  }

  ghost predicate StepLed(s: State, n: Name, c: Choice, t: State) {
    Has(s, n) && Has(t, n) && Led(n, OwnOf(s, n), s.store[n].dirty, s.m.vm.suspended, c.out.msyncOk, OwnOf(t, n))
  }

  lemma PreLed(s: State, n: Name, c: Choice)
    requires CanStep(s, n)
    requires s.pc[n].Pre? || s.pc[n].Msyncing? || s.pc[n].ShortcutFlag? || s.pc[n].ShortcutInsert?
    ensures StepLed(s, n, c, StepPre(s, n, c))
  {
  }

  lemma DriverLed(s: State, n: Name, c: Choice)
    requires CanStep(s, n)
    requires s.pc[n].Fetching? || s.pc[n].PostGet? || s.pc[n].Announcing? || s.pc[n].PostMigrate?
    ensures StepLed(s, n, c, StepDriver(s, n, c))
  {
  }

  lemma SentLed(s: State, n: Name, c: Choice)
    requires CanStep(s, n)
    requires s.pc[n].SentWait? || s.pc[n].SentMark?
    ensures StepLed(s, n, c, StepSent(s, n, c))
  {
  }

  lemma TransferLed(s: State, n: Name, c: Choice)
    requires CanStep(s, n)
    requires || s.pc[n].SentSuspendWait? || s.pc[n].SentSuspendRead? || s.pc[n].SentTransferWait?
             || s.pc[n].SentTransferTest? || s.pc[n].SentTransferring?
    ensures StepLed(s, n, c, StepTransfer(s, n, c))
  {
  }

  lemma ThrottleLed(s: State, n: Name, c: Choice)
    requires CanStep(s, n)
    requires s.pc[n].Delaying? || s.pc[n].DelayRead? || s.pc[n].DelayFull?
    ensures StepLed(s, n, c, StepThrottle(s, n, c))
  {
  }

  lemma CycleLed(s: State, n: Name, c: Choice)
    requires CanStep(s, n)
    requires s.pc[n].Counting? || s.pc[n].MarkFlag? || s.pc[n].MarkInsert? || s.pc[n].CountReady?
    ensures StepLed(s, n, c, StepCycle(s, n, c))
  {
  }

  lemma SuspendLed(s: State, n: Name, c: Choice)
    requires CanStep(s, n)
    requires s.pc[n].SuspendWait? || s.pc[n].SuspendTest? || s.pc[n].VMWait? || s.pc[n].VMTest?
    ensures StepLed(s, n, c, StepSuspend(s, n, c))
  {
  }

  lemma CallbackLed(s: State, n: Name, c: Choice)
    requires CanStep(s, n)
    requires s.pc[n].Suspending? || s.pc[n].Flushing? || s.pc[n].Stopping? || s.pc[n].Finishing?
    ensures StepLed(s, n, c, StepCallback(s, n, c))
  {
  }

  lemma ThreadLed(s: State, n: Name, c: Choice)
    requires CanStep(s, n)
    ensures StepLed(s, n, c, StepThread(s, n, c))
  {
    match s.pc[n]
    case Pre | Msyncing | ShortcutFlag | ShortcutInsert => PreLed(s, n, c);
    case Fetching | PostGet | Announcing | PostMigrate => DriverLed(s, n, c);
    case SentWait | SentMark => SentLed(s, n, c);
    case SentSuspendWait | SentSuspendRead | SentTransferWait | SentTransferTest | SentTransferring =>
      TransferLed(s, n, c);
    case Delaying | DelayRead | DelayFull => ThrottleLed(s, n, c);
    case Counting | MarkFlag | MarkInsert | CountReady => CycleLed(s, n, c);
    case SuspendWait | SuspendTest | VMWait | VMTest => SuspendLed(s, n, c);
    case Suspending | Flushing | Stopping | Finishing(_) => CallbackLed(s, n, c);
  }

  /** The same for the step that brought a device where it is. */
  lemma CameLed(ss: seq<State>, acts: seq<Action>, i: nat, n: Name) returns (l: nat)
    requires Run(ss, acts) && i < |ss| && n in ss[i].pc && ss[i].pc[n] != Pre
    ensures LastStep(acts, n, l, i) && Has(ss[l], n) && Has(ss[i], n)
    ensures Led(n, OwnOf(ss[l], n), ss[l].store[n].dirty, ss[l].m.vm.suspended, acts[l].choice.out.msyncOk,
                OwnOf(ss[i], n))
  {
    l := StepBefore(ss, acts, i, n);
    ThreadLed(ss[l], n, acts[l].choice);
  }

  // ----- passes -----

  /** State `i` of a run has the device at `pc`. */
  predicate At(ss: seq<State>, i: nat, n: Name, pc: PC) {
    i < |ss| && Has(ss[i], n) && ss[i].pc[n] == pc
  }

  ghost predicate Sampled(ss: seq<State>, acts: seq<Action>, n: Name, j: nat, suspended: bool) {
    j < |acts| && Steps(acts[j], n) && At(ss, j, n, Pre) && ss[j].m.vm.suspended == suspended
  }

  ghost predicate Msynced(ss: seq<State>, acts: seq<Action>, n: Name, k: nat) {
    k < |acts| && Steps(acts[k], n) && At(ss, k, n, Msyncing) && acts[k].choice.out.msyncOk
  }

  /** A fetch follows the sample of the flag at once, unless memory fetches while the machine runs: then it does so only
      if `MaxCycles` is positive, and a successful msync came in between. */
  lemma FetchFollows(ss: seq<State>, acts: seq<Action>, i: nat, n: Name) returns (j: nat, k: nat)
    requires Run(ss, acts) && At(ss, i, n, Fetching)
    ensures LastStep(acts, n, k, i) && Sampled(ss, acts, n, j, ss[i].m.devices[n].suspendedAtPre)
    ensures if n == MEMORY && !ss[i].m.devices[n].suspendedAtPre
            then ss[i].m.devices[n].maxCycles > 0 && LastStep(acts, n, j, k) && Msynced(ss, acts, n, k)
            else j == k
  {
    k := CameLed(ss, acts, i, n);
    j := k;
    if ss[k].pc[n].Msyncing? {
      j := CameLed(ss, acts, k, n);
    }
  }

  /** A list announced in a pass after the suspend is not empty. */
  lemma AnnouncesWork(ss: seq<State>, acts: seq<Action>, i: nat, n: Name)
    requires Run(ss, acts) && At(ss, i, n, Announcing) && ss[i].m.devices[n].suspendedAtPre
    ensures ss[i].store[n].fetched != {}
  {
    var l := CameLed(ss, acts, i, n);
  }

  /** A device on its way to the end with nothing left to announce. */
  ghost predicate Ending(o: Own) {
    || (o.pc.PostGet? && o.fetched == {} && o.d.suspendedAtPre)
    || o.pc.SentWait? || o.pc.SentMark? || o.pc.SentSuspendWait? || o.pc.SentSuspendRead?
    || o.pc.SentTransferWait? || o.pc.SentTransferTest? || o.pc.SentTransferring?
    || Finished(o.pc)
  }

  lemma SentEnds(s: State, n: Name, c: Choice)
    requires CanStep(s, n) && (s.pc[n].SentWait? || s.pc[n].SentMark?)
    ensures Has(StepSent(s, n, c), n) && Ending(OwnOf(StepSent(s, n, c), n))
  {
  }

  lemma TransferEnds(s: State, n: Name, c: Choice)
    requires CanStep(s, n) && (s.pc[n].SentSuspendWait? || s.pc[n].SentSuspendRead? || s.pc[n].SentTransferWait?
                               || s.pc[n].SentTransferTest? || s.pc[n].SentTransferring?)
    ensures Has(StepTransfer(s, n, c), n) && Ending(OwnOf(StepTransfer(s, n, c), n))
  {
  }

  lemma StepEnds(s: State, n: Name, c: Choice)
    requires CanStep(s, n) && Ending(OwnOf(s, n))
    ensures Has(StepThread(s, n, c), n) && Ending(OwnOf(StepThread(s, n, c), n))
  {
    match s.pc[n]
    case PostGet => assert StepThread(s, n, c) == StepDriver(s, n, c);
    case SentWait | SentMark => SentEnds(s, n, c);
    case SentSuspendWait | SentSuspendRead | SentTransferWait | SentTransferTest | SentTransferring =>
      TransferEnds(s, n, c);
  }

  lemma NextEnds(ss: seq<State>, acts: seq<Action>, i: nat, n: Name)
    requires Run(ss, acts) && i < |acts| && Has(ss[i], n) && Ending(OwnOf(ss[i], n))
    ensures Has(ss[i + 1], n) && Ending(OwnOf(ss[i + 1], n))
  {
    RunStep(ss, acts, i);
    if Steps(acts[i], n) {
      StepEnds(ss[i], n, acts[i].choice);
    } else {
      NextLeaves(ss, acts, i, n);
    }
  }

  /** A pass after the suspend that finds nothing is its device's last, and announces nothing. */
  lemma EmptyPassEnds(ss: seq<State>, acts: seq<Action>, i: nat, j: nat, n: Name)
    requires Run(ss, acts) && i <= j < |ss| && At(ss, i, n, PostGet)
    requires ss[i].store[n].fetched == {} && ss[i].m.devices[n].suspendedAtPre
    ensures Has(ss[j], n) && Ending(OwnOf(ss[j], n))
  {
    ghost var ends: State -> bool := (s: State) => Has(s, n) && Ending(OwnOf(s, n));
    forall k | i <= k < j && ends(ss[k]) ensures ends(ss[k + 1]) {
      NextEnds(ss, acts, k, n);
    }
    Stepwise(ss, ends, i, j);
  }

  /** Step `k` fetched, and the device has not begun another pass since. */
  predicate FetchedAt(ss: seq<State>, acts: seq<Action>, n: Name, k: nat, i: nat) {
    && k < i <= |acts| && Steps(acts[k], n) && At(ss, k, n, Fetching)
    && forall l | k < l < i && Steps(acts[l], n) :: !At(ss, l, n, Pre)
  }

  /** The length of the list that a pass holds or has announced. */
  function Length(o: Own): nat {
    if o.pc.PostGet? || o.pc.Announcing? then |o.fetched| else o.listed
  }

  predicate HasList(pc: PC) {
    pc.PostGet? || pc.Announcing? || pc.PostMigrate? || Throttled(pc) || pc.Counting?
  }

  ghost predicate ListStands(ss: seq<State>, acts: seq<Action>, n: Name, k: nat, i: nat)
    requires i < |ss| && Has(ss[i], n)
  {
    if FetchedAt(ss, acts, n, k, i) then Length(OwnOf(ss[i], n)) == |ss[k].store[n].dirty|
    else
      && n == MEMORY && ss[i].m.devices[n].maxCycles <= 0
      && Length(OwnOf(ss[i], n)) == 0 && ss[i].m.devices[n].ready
  }

  lemma FetchedLater(ss: seq<State>, acts: seq<Action>, n: Name, k: nat, l: nat, i: nat)
    requires i <= |acts| && FetchedAt(ss, acts, n, k, l) && LastStep(acts, n, l, i) && !At(ss, l, n, Pre)
    ensures FetchedAt(ss, acts, n, k, i)
  {
  }

  /** How the list of one place comes from that of the place before. */
  predicate ListFrom(n: Name, o: Own, dirty: set<nat>, t: Own) {
    if o.pc.Fetching? then Length(t) == |dirty|
    else if HasList(o.pc) then Length(t) == Length(o) && t.d == o.d
    else
      && ((o.pc.ShortcutFlag? && o.d.ready) || o.pc.ShortcutInsert?)
      && Length(t) == |o.fetched| && t.d == o.d
  }

  lemma LedWithList(n: Name, o: Own, dirty: set<nat>, suspended: bool, msyncOk: bool, t: Own)
    requires Led(n, o, dirty, suspended, msyncOk, t) && HasList(t.pc)
    ensures ListFrom(n, o, dirty, t) && !o.pc.Pre?
  {
  }

  lemma CameWithList(ss: seq<State>, acts: seq<Action>, i: nat, n: Name) returns (l: nat)
    requires Run(ss, acts) && i < |ss| && Has(ss[i], n) && HasList(ss[i].pc[n])
    ensures LastStep(acts, n, l, i) && Has(ss[l], n) && !At(ss, l, n, Pre)
    ensures ListFrom(n, OwnOf(ss[l], n), ss[l].store[n].dirty, OwnOf(ss[i], n))
  {
    l := CameLed(ss, acts, i, n);
    LedWithList(n, OwnOf(ss[l], n), ss[l].store[n].dirty, ss[l].m.vm.suspended, acts[l].choice.out.msyncOk,
                OwnOf(ss[i], n));
  }

  /** The list that a pass holds, announces and counts is the one it fetched; only the pass of memory that `MaxCycles`
      turns off has none, and it has made memory ready. */
  lemma {:induction false} ListIsFetched(ss: seq<State>, acts: seq<Action>, i: nat, n: Name) returns (k: nat)
    requires Run(ss, acts) && i < |ss| && Has(ss[i], n) && HasList(ss[i].pc[n])
    ensures ListStands(ss, acts, n, k, i)
  {
    var l := CameWithList(ss, acts, i, n);
    if ss[l].pc[n].Fetching? {
      k := l;
      assert FetchedAt(ss, acts, n, k, i);
    } else if HasList(ss[l].pc[n]) {
      k := ListIsFetched(ss, acts, l, n);
      if FetchedAt(ss, acts, n, k, l) {
        FetchedLater(ss, acts, n, k, l, i);
      } else {
        NotFetchedLater(ss, acts, n, k, l, i);
      }
    } else {
      k := i;
      NothingFetched(ss, acts, l, n);
    }
  }

  lemma NotFetchedLater(ss: seq<State>, acts: seq<Action>, n: Name, k: nat, l: nat, i: nat)
    requires i <= |acts| && !FetchedAt(ss, acts, n, k, l) && LastStep(acts, n, l, i) && l < |ss| && Has(ss[l], n)
    requires !ss[l].pc[n].Fetching?
    ensures !FetchedAt(ss, acts, n, k, i)
  {
  }

  lemma ShortcutCame(ss: seq<State>, acts: seq<Action>, l: nat, n: Name)
    requires Run(ss, acts) && At(ss, l, n, ShortcutFlag)
    ensures n == MEMORY && ss[l].m.devices[n].maxCycles <= 0
  {
    var j := CameLed(ss, acts, l, n);
  }

  lemma NothingFetched(ss: seq<State>, acts: seq<Action>, l: nat, n: Name)
    requires Run(ss, acts) && l < |ss| && Has(ss[l], n) && (ss[l].pc[n].ShortcutFlag? || ss[l].pc[n].ShortcutInsert?)
    ensures n == MEMORY && ss[l].m.devices[n].maxCycles <= 0 && ss[l].store[n].fetched == {}
    ensures ss[l].pc[n].ShortcutInsert? ==> ss[l].m.devices[n].ready
  {
    RunKeepsInv(ss, acts, l);
    assert StorePhase(ss[l], n);
    if ss[l].pc[n].ShortcutFlag? {
      ShortcutCame(ss, acts, l, n);
    } else {
      var j := CameLed(ss, acts, l, n);
      ShortcutCame(ss, acts, j, n);
    }
  }
}
