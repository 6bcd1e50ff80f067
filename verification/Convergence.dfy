/** How long the dirty phase can last: a bound on the cycles of one device, attained, and the end of the whole
    phase under round-robin passes without errors. */
module Convergence {
  import opened Handover

  // ----- one device -----

  function AtLeast(a: int, b: int): int {
    if a < b then b else a
  }

  /** The largest number of counted cycles before a device is ready. */
  function Bound(d: Status): (b: nat)
    ensures b >= 1
  {
    AtLeast(d.maxCycles, 1) + AtLeast(d.minCycles, 0)
  }

  /** One counted cycle and the decision it leads to. */
  function Cycle(d: Status, dirty: nat): Status {
    if CycleSettles(d, dirty) then Flagged(Counted(d, dirty)) else Counted(d, dirty)
  }

  function Cycles(d: Status, counts: seq<nat>): Status
    decreases |counts|
  {
    if counts == [] then d else Cycles(Cycle(d, counts[0]), counts[1..])
  }

  /** While a device is not ready, every cycle from the last permitted reset on has been below the threshold. */
  predicate Unsettled(d: Status) {
    d.ready || (0 <= d.belowThreshold <= AtLeast(d.minCycles, 0)
                && d.totalCycles >= 0
                && d.belowThreshold >= d.totalCycles - (AtLeast(d.maxCycles, 1) - 1))
  }

  /** What is left of the bound. */
  function Rank(d: Status): int {
    if d.ready then 0 else Bound(d) - d.totalCycles
  }

  lemma CycleDescends(d: Status, dirty: nat)
    requires Unsettled(d)
    ensures Unsettled(Cycle(d, dirty)) && Bound(Cycle(d, dirty)) == Bound(d)
    ensures Rank(d) >= 0 && (!d.ready ==> Rank(d) > 0)
    ensures Rank(Cycle(d, dirty)) == 0 || Rank(Cycle(d, dirty)) < Rank(d)
    ensures d.ready ==> Cycle(d, dirty).ready
  {
  }

  lemma {:induction false} CyclesDescend(d: Status, counts: seq<nat>)
    requires Unsettled(d)
    ensures Unsettled(Cycles(d, counts)) && Rank(Cycles(d, counts)) <= AtLeast(Rank(d) - |counts|, 0)
    decreases |counts|
  {
    CycleDescends(d, if counts == [] then 0 else counts[0]);
    if counts != [] {
      CyclesDescend(Cycle(d, counts[0]), counts[1..]);
    }
  }

  /** Whatever the dirty counts, a fresh device is ready once it has counted `Bound` cycles. */
  lemma ReadyWithinBound(d: Status, counts: seq<nat>)
    requires FreshStatus(d) && |counts| >= Bound(d)
    ensures Cycles(d, counts).ready
  {
    CyclesDescend(d, counts);
    CycleDescends(Cycles(d, counts), 0);
  }

  /** Cycles at the threshold, none of them late enough to settle. */
  lemma {:induction false} BusyCycles(d: Status, j: nat)
    requires !d.ready && d.belowThreshold == 0 && d.totalCycles + j < AtLeast(d.maxCycles, 1) && d.totalCycles >= 0
    ensures Cycles(d, seq(j, i => AtLeast(d.maxDirtyBlocks, 0))) == d.(totalCycles := d.totalCycles + j)
    decreases j
  {
    var counts := seq(j, i => AtLeast(d.maxDirtyBlocks, 0));
    if j > 0 {
      var e := d.(totalCycles := d.totalCycles + 1);
      assert Cycle(d, counts[0]) == e;
      assert counts[1..] == seq(j - 1, i => AtLeast(e.maxDirtyBlocks, 0));
      BusyCycles(e, j - 1);
    }
  }

  /** Cycles below the threshold, not yet enough of them. */
  lemma {:induction false} QuietCycles(d: Status, j: nat)
    requires !d.ready && d.belowThreshold + j <= d.minCycles && d.maxDirtyBlocks > 0
    ensures !Cycles(d, seq(j, i => 0)).ready
    decreases j
  {
    var counts := seq(j, i => 0);
    if j > 0 {
      var e := Cycle(d, 0);
      assert counts[1..] == seq(j - 1, i => 0);
      QuietCycles(e, j - 1);
    }
  }

  lemma {:induction false} CyclesConcat(d: Status, a: seq<nat>, b: seq<nat>)
    ensures Cycles(d, a + b) == Cycles(Cycles(d, a), b)
    decreases |a|
  {
    if a == [] {
      assert a + b == b;
    } else {
      assert (a + b)[0] == a[0] && (a + b)[1..] == a[1..] + b;
      CyclesConcat(Cycle(d, a[0]), a[1..], b);
    }
  }

  /** One cycle fewer than the bound can leave the device unready, unless no count is ever below the threshold. */
  lemma BoundIsAttained(d: Status) returns (counts: seq<nat>)
    requires FreshStatus(d) && (d.maxDirtyBlocks > 0 || d.minCycles <= 0)
    ensures |counts| == Bound(d) - 1 && !Cycles(d, counts).ready
  {
    var busy := BusyCounts(d);
    var quiet: seq<nat> := seq(AtLeast(d.minCycles, 0), i => 0);
    counts := busy + quiet;
    CyclesConcat(d, busy, quiet);
    if d.minCycles > 0 {
      QuietCycles(Cycles(d, busy), d.minCycles);
    }
  }

  /** As many cycles as can go by without settling or counting below the threshold. */
  lemma BusyCounts(d: Status) returns (busy: seq<nat>)
    requires FreshStatus(d)
    ensures |busy| == AtLeast(d.maxCycles, 1) - 1
    ensures Cycles(d, busy) == d.(totalCycles := |busy|)
  {
    var n := AtLeast(d.maxCycles, 1) - 1;
    busy := seq(n, i => AtLeast(d.maxDirtyBlocks, 0));
    BusyCycles(d, n);
  }

  /** With no positive threshold only the maximum counts. */
  lemma {:induction false} NoneBelow(d: Status, counts: seq<nat>)
    requires d.maxDirtyBlocks <= 0
    ensures d.totalCycles + |counts| >= AtLeast(d.maxCycles, 1) && counts != [] && d.totalCycles >= 0 ==>
              Cycles(d, counts).ready
    ensures d.ready ==> Cycles(d, counts).ready
    decreases |counts|
  {
    if counts != [] {
      NoneBelow(Cycle(d, counts[0]), counts[1..]);
    }
  }

  /** `MaxCycles` cycles always make a fresh device ready exactly when it is positive and either no cycle below the
      threshold has to be repeated or none can be below it; in every other case some counts leave it unready. */
  lemma MaxCyclesSuffice(d: Status)
    requires FreshStatus(d)
    ensures (forall counts: seq<nat> | |counts| >= d.maxCycles :: Cycles(d, counts).ready) <==>
            d.maxCycles >= 1 && (d.minCycles <= 0 || d.maxDirtyBlocks <= 0)
  {
    if d.maxCycles < 1 {
      var none: seq<nat> := [];
      assert !Cycles(d, none).ready;
    } else if d.minCycles <= 0 {
      forall counts: seq<nat> | |counts| >= d.maxCycles ensures Cycles(d, counts).ready {
        ReadyWithinBound(d, counts);
      }
    } else if d.maxDirtyBlocks <= 0 {
      forall counts: seq<nat> | |counts| >= d.maxCycles ensures Cycles(d, counts).ready {
        NoneBelow(d, counts);
      }
    } else {
      var counts := BoundIsAttained(d);
      assert |counts| >= d.maxCycles && !Cycles(d, counts).ready;
    }
  }

  /** The bound is tight unless counts below the threshold are asked for and there can be none. */
  lemma BoundIsTight(d: Status)
    requires FreshStatus(d)
    ensures (exists counts: seq<nat> :: |counts| == Bound(d) - 1 && !Cycles(d, counts).ready) <==>
            d.maxDirtyBlocks > 0 || d.minCycles <= 0
  {
    if d.maxDirtyBlocks > 0 || d.minCycles <= 0 {
      var counts := BoundIsAttained(d);
    } else {
      forall counts: seq<nat> | |counts| == Bound(d) - 1 ensures Cycles(d, counts).ready {
        NoneBelow(d, counts);
      }
    }
  }

  // ----- which counts make a device ready -----

  /** Cycle `j` starts the count of quiet cycles again: it is at the threshold and not late enough to settle. */
  predicate Resets(d: Status, counts: seq<nat>, j: nat)
    requires j < |counts|
  {
    counts[j] >= d.maxDirtyBlocks && j + 1 < d.maxCycles
  }

  /** Cycle `from` is the first one after the last reset before `i`. */
  predicate Since(d: Status, counts: seq<nat>, from: nat, i: nat)
    requires i <= |counts|
  {
    && from <= i
    && (from == 0 || Resets(d, counts, from - 1))
    && forall j | from <= j < i :: !Resets(d, counts, j)
  }

  /** The cycles below the threshold. */
  function Quiet(d: Status, counts: seq<nat>, from: nat, to: nat): set<nat>
    requires to <= |counts|
  {
    set j: nat | from <= j < to && counts[j] < d.maxDirtyBlocks
  }

  /** Cycle `i` is late and at the threshold, or it is below and more than `minCycles` have been since the last
      reset. */
  ghost predicate Settles(d: Status, counts: seq<nat>, i: nat)
    requires i < |counts|
  {
    if counts[i] >= d.maxDirtyBlocks then i + 1 >= d.maxCycles
    else exists from: nat :: Since(d, counts, from, i) && |Quiet(d, counts, from, i + 1)| > d.minCycles
  }

  lemma OneSince(d: Status, counts: seq<nat>, f: nat, g: nat, i: nat)
    requires i <= |counts| && Since(d, counts, f, i) && Since(d, counts, g, i)
    ensures f == g
  {
    var first := if f < g then f else g;
    assert forall j | first <= j < i :: !Resets(d, counts, j);
  }

  lemma QuietGrows(d: Status, counts: seq<nat>, from: nat, to: nat)
    requires from <= to < |counts|
    ensures |Quiet(d, counts, from, to + 1)| ==
            |Quiet(d, counts, from, to)| + if counts[to] < d.maxDirtyBlocks then 1 else 0
  {
    var now, next := Quiet(d, counts, from, to), Quiet(d, counts, from, to + 1);
    if counts[to] < d.maxDirtyBlocks {
      assert next == now + {to};
    } else {
      assert next == now;
    }
  }

  lemma CyclesOnce(d: Status, counts: seq<nat>, k: nat)
    requires k < |counts|
    ensures Cycles(d, counts[..k + 1]) == Cycle(Cycles(d, counts[..k]), counts[k])
  {
    assert counts[..k + 1] == counts[..k] + [counts[k]];
    CyclesConcat(d, counts[..k], [counts[k]]);
    assert Cycles(Cycle(Cycles(d, counts[..k]), counts[k]), []) == Cycle(Cycles(d, counts[..k]), counts[k]);
  }

  /** What the status holds after `k` cycles, in terms of their counts. */
  ghost predicate CountedSince(d: Status, counts: seq<nat>, k: nat, from: nat, e: Status)
    requires k <= |counts|
  {
    && Since(d, counts, from, k)
    && e == d.(totalCycles := k, belowThreshold := |Quiet(d, counts, from, k)|, ready := e.ready)
  }

  lemma CountsOnce(d: Status, counts: seq<nat>, k: nat, from: nat, e: Status) returns (next: nat)
    requires k < |counts| && CountedSince(d, counts, k, from, e)
    ensures CountedSince(d, counts, k + 1, next, Cycle(e, counts[k]))
    ensures CycleSettles(e, counts[k]) <==> Settles(d, counts, k)
  {
    QuietGrows(d, counts, from, k);
    next := if Resets(d, counts, k) then k + 1 else from;
    if Resets(d, counts, k) {
      assert Quiet(d, counts, k + 1, k + 1) == {};
    }
    forall f: nat | Since(d, counts, f, k) ensures f == from {
      OneSince(d, counts, f, from, k);
    }
  }

  lemma {:induction false} CyclesCount(d: Status, counts: seq<nat>, k: nat) returns (from: nat)
    requires FreshStatus(d) && k <= |counts|
    ensures CountedSince(d, counts, k, from, Cycles(d, counts[..k]))
    ensures Cycles(d, counts[..k]).ready <==> exists i: nat :: i < k && Settles(d, counts, i)
  {
    if k == 0 {
      from := 0;
      assert Quiet(d, counts, 0, 0) == {};
    } else {
      var earlier := CyclesCount(d, counts, k - 1);
      CyclesOnce(d, counts, k - 1);
      from := CountsOnce(d, counts, k - 1, earlier, Cycles(d, counts[..k - 1]));
    }
  }

  /** A fresh device is ready after some cycles exactly if one of them settles it, whatever it was for the others. */
  lemma ReadyExactlyWhen(d: Status, counts: seq<nat>)
    requires FreshStatus(d)
    ensures Cycles(d, counts).ready <==> exists i: nat :: i < |counts| && Settles(d, counts, i)
  {
    var from := CyclesCount(d, counts, |counts|);
    assert counts[..|counts|] == counts;
  }

  // ----- round-robin passes over all devices -----

  const ALL_WELL := Outcome(true, true, true)

  /** The manager and the devices whose loops still run. */
  datatype Phase = Phase(m: Manager, live: set<Name>)

  /** One pass of one device over `dirty` blocks; the answer is whether its loop ends. */
  function Pass(m: Manager, n: Name, dirty: nat): (Manager, bool)
    requires n in m.devices
  {
    var (m1, pre) := PreGetDirty(m, n, ALL_WELL);
    var fetched := if pre.more then dirty else 0;
    var (m2, get) := PostGetDirty(m1, n, fetched, ALL_WELL);
    if !get.more then (m2, true)
    else
      var (m3, migrate) := PostMigrateDirty(m2, n, fetched, ALL_WELL);
      (m3, !migrate.more)
  }

  function Turn(p: Phase, n: Name, dirty: nat): Phase {
    if n in p.live && n in p.m.devices then
      var (m, ends) := Pass(p.m, n, dirty);
      Phase(m, if ends then p.live - {n} else p.live)
    else p
  }

  function Round(p: Phase, order: seq<Name>, dirty: Name -> nat): Phase
    decreases |order|
  {
    if order == [] then p else Round(Turn(p, order[0], dirty(order[0])), order[1..], dirty)
  }

  function Rounds(p: Phase, order: seq<Name>, dirty: seq<Name -> nat>): Phase
    decreases |dirty|
  {
    if dirty == [] then p else Rounds(Round(p, order, dirty[0]), order, dirty[1..])
  }

  /** The machine runs and nothing has been sent. */
  ghost predicate Calm(m: Manager) {
    && m.devices != map[]
    && !m.vm.suspended && !m.suspendCompleted && !m.transferCompleted && m.transfers == 0
    && m.readyKeys <= m.devices.Keys
    && (forall n | n in m.devices ::
          && Unsettled(m.devices[n])
          && (n in m.readyKeys <==> m.devices[n].ready)
          && !m.devices[n].suspendedAtPre && !m.devices[n].sentDirty)
  }

  /** And someone is not ready. */
  ghost predicate Running(p: Phase) {
    && Calm(p.m)
    && p.live == p.m.devices.Keys
    && (exists n :: n in p.m.devices && !p.m.devices[n].ready)
  }

  /** The machine is suspended; the loops that ended are those that sent, and authority follows the last. */
  ghost predicate Halted(p: Phase) {
    && p.m.devices != map[]
    && p.live <= p.m.devices.Keys
    && p.m.vm.suspended && p.m.suspendCompleted
    && p.m.readyKeys == p.m.devices.Keys
    && (forall n | n in p.m.devices :: p.m.devices[n].ready && (p.m.devices[n].sentDirty <==> n !in p.live))
    && (p.m.transferCompleted <==> p.live == {})
    && p.m.transfers == (if p.live == {} then 1 else 0)
  }

  /** What a pass does to its own device while the machine runs. */
  function PassStatus(n: Name, d: Status, dirty: nat): Status {
    if n == MEMORY && d.maxCycles <= 0 then Cycle(Flagged(d), 0) else Cycle(d, dirty)
  }

  /** The state a running pass hands to the ready count. */
  function PassManager(m: Manager, n: Name, dirty: nat): Manager
    requires n in m.devices
  {
    var d := PassStatus(n, m.devices[n], dirty);
    m.(devices := m.devices[n := d], readyKeys := if d.ready then m.readyKeys + {n} else m.readyKeys)
  }

  lemma RunningPass(m: Manager, n: Name, dirty: nat)
    requires n in m.devices && !m.vm.suspended && !m.devices[n].suspendedAtPre
    requires n in m.readyKeys <==> m.devices[n].ready
    ensures var (after, answer) := SuspendIfAllReady(PassManager(m, n, dirty), ALL_WELL);
            Pass(m, n, dirty) == (after, !answer.more) && answer.more
  {
    var d := m.devices[n];
    var sampled := WithDevice(m, n, d.(suspendedAtPre := false));
    assert d.(suspendedAtPre := false) == d;
    assert m.devices[n := d] == m.devices;
    assert sampled == m;
    var m1 := PreGetDirty(m, n, ALL_WELL).0;
    var shortcut := n == MEMORY && d.maxCycles <= 0;
    assert m1 == if shortcut then MarkReady(m, n) else m;
    var fetched := if shortcut then 0 else dirty;
    assert m1.devices[n] == if shortcut then Flagged(d) else d;
    CountedManager(m1, n, fetched);
    assert m1.devices[n := Cycle(m1.devices[n], fetched)] == m.devices[n := Cycle(m1.devices[n], fetched)];
    if shortcut {
      assert m.readyKeys + {n} == m1.readyKeys;
      assert m1.readyKeys + {n} == m1.readyKeys;
    }
  }

  lemma CountedManager(m: Manager, n: Name, dirty: nat)
    requires n in m.devices && (n in m.readyKeys <==> m.devices[n].ready)
    ensures var d := Cycle(m.devices[n], dirty);
            AfterCycle(m, n, dirty) ==
            m.(devices := m.devices[n := d], readyKeys := if d.ready then m.readyKeys + {n} else m.readyKeys)
  {
    if m.devices[n].ready {
      assert m.readyKeys + {n} == m.readyKeys;
    }
  }

  lemma PassStaysCalm(m: Manager, n: Name, dirty: nat)
    requires Calm(m) && n in m.devices
    ensures Calm(PassManager(m, n, dirty)) && PassManager(m, n, dirty).devices.Keys == m.devices.Keys
  {
    CycleDescends(Flagged(m.devices[n]), 0);
    CycleDescends(m.devices[n], dirty);
  }

  lemma CalmDecides(m: Manager)
    requires Calm(m)
    ensures var q := Phase(SuspendIfAllReady(m, ALL_WELL).0, m.devices.Keys);
            q.m.devices == m.devices && (Running(q) || (Halted(q) && q.live == m.devices.Keys))
  {
    CountMeansAll(m.devices, m.readyKeys);
    if |m.readyKeys| == |m.devices| {
      var k :| k in m.devices;
      assert k in m.devices.Keys && m.readyKeys == m.devices.Keys;
    } else {
      var k :| k in m.devices && k !in m.readyKeys;
      assert !m.devices[k].ready;
    }
  }

  /** A pass while the machine runs: the device counts a cycle, and the pass that makes the last device ready
      suspends. */
  lemma RunningTurn(p: Phase, n: Name, dirty: nat)
    requires Running(p) && n in p.m.devices
    ensures var q := Turn(p, n, dirty); Running(q) || (Halted(q) && q.live == p.live)
    ensures Turn(p, n, dirty).m.devices == p.m.devices[n := PassStatus(n, p.m.devices[n], dirty)]
  {
    RunningPass(p.m, n, dirty);
    PassStaysCalm(p.m, n, dirty);
    CalmDecides(PassManager(p.m, n, dirty));
  }

  lemma HaltedPass(m: Manager, n: Name, dirty: nat)
    requires n in m.devices && n in m.readyKeys && m.vm.suspended
    ensures Pass(m, n, dirty) ==
            (MarkSent(WithDevice(m, n, m.devices[n].(suspendedAtPre := true)), n, true).0, true)
  {
  }

  /** A pass after the suspend ends the loop, and the last one transfers authority. */
  lemma HaltedTurn(p: Phase, n: Name, dirty: nat)
    requires Halted(p) && n in p.m.devices
    ensures Halted(Turn(p, n, dirty)) && Turn(p, n, dirty).live == p.live - {n}
    ensures Turn(p, n, dirty).m.devices.Keys == p.m.devices.Keys
  {
    if n in p.live {
      HaltedPass(p.m, n, dirty);
      var q := Turn(p, n, dirty);
      var d := p.m.devices[n].(suspendedAtPre := true, sentDirty := true);
      var devices := p.m.devices[n := d];
      assert q.m.devices == devices;
      assert devices.Keys == p.m.devices.Keys;
      if q.live == {} {
        forall k | k in devices ensures devices[k].ready && devices[k].sentDirty {
          assert k !in q.live;
        }
        assert AllSent(devices);
      } else {
        var k :| k in q.live;
        assert k in devices && !devices[k].sentDirty;
      }
    }
  }

  lemma {:induction false} HaltedRound(p: Phase, order: seq<Name>, dirty: Name -> nat)
    requires Halted(p) && forall n | n in order :: n in p.m.devices
    ensures var q := Round(p, order, dirty); Halted(q) && q.live == p.live - (set n | n in order)
    decreases |order|
  {
    if order != [] {
      var q := Turn(p, order[0], dirty(order[0]));
      HaltedTurn(p, order[0], dirty(order[0]));
      HaltedRound(q, order[1..], dirty);
      assert (set n | n in order) == {order[0]} + (set n | n in order[1..]);
    }
  }

  /** How the statuses move while the machine runs. */
  ghost predicate Progress(before: map<Name, Status>, after: map<Name, Status>, moved: set<Name>) {
    && after.Keys == before.Keys
    && (forall n | n in before :: Rank(after[n]) == 0 || Rank(after[n]) <= Rank(before[n]))
    && (forall n | n in before && n in moved :: Rank(after[n]) == 0 || Rank(after[n]) < Rank(before[n]))
  }

  lemma PassProgresses(devices: map<Name, Status>, n: Name, dirty: nat)
    requires n in devices && Unsettled(devices[n])
    ensures Progress(devices, devices[n := PassStatus(n, devices[n], dirty)], {n})
  {
    CycleDescends(devices[n], dirty);
    CycleDescends(Flagged(devices[n]), 0);
  }

  lemma ProgressJoins(a: map<Name, Status>, b: map<Name, Status>, c: map<Name, Status>, x: set<Name>, y: set<Name>)
    requires Progress(a, b, x) && Progress(b, c, y)
    requires forall n | n in a :: Rank(a[n]) >= 0
    ensures Progress(a, c, x + y)
  {
  }

  lemma {:induction false} RunningRound(p: Phase, order: seq<Name>, dirty: Name -> nat)
    requires Running(p) && forall n | n in order :: n in p.m.devices
    ensures var q := Round(p, order, dirty);
            Halted(q) || (Running(q) && Progress(p.m.devices, q.m.devices, set n | n in order))
    decreases |order|
  {
    if order != [] {
      var n := order[0];
      var q := Turn(p, n, dirty(n));
      RunningTurn(p, n, dirty(n));
      if Running(q) {
        RunningRound(q, order[1..], dirty);
        PassProgresses(p.m.devices, n, dirty(n));
        forall k | k in p.m.devices ensures Rank(p.m.devices[k]) >= 0 {
          CycleDescends(p.m.devices[k], 0);
        }
        if Running(Round(p, order, dirty)) {
          ProgressJoins(p.m.devices, q.m.devices, Round(p, order, dirty).m.devices, {n}, set k | k in order[1..]);
        }
        assert (set k | k in order) == {n} + (set k | k in order[1..]);
      } else {
        HaltedRound(q, order[1..], dirty);
      }
    }
  }

  // ----- the measure -----

  function MaxRank(devices: map<Name, Status>, order: seq<Name>): (r: int)
    requires forall n | n in order :: n in devices
    ensures r >= 0
    ensures forall n | n in order :: Rank(devices[n]) <= r
    ensures r == 0 || exists n :: n in order && Rank(devices[n]) == r
  {
    if order == [] then 0 else AtLeast(MaxRank(devices, order[1..]), Rank(devices[order[0]]))
  }

  /** Rounds that can still come: none when every loop has ended, one more after the suspend, and before it the
      largest rest of any device's bound on top. */
  ghost function Measure(p: Phase, order: seq<Name>): int
    requires forall n | n in order :: n in p.m.devices
  {
    if p.live == {} then 0 else if p.m.vm.suspended then 1 else 1 + MaxRank(p.m.devices, order)
  }

  ghost predicate Covers(order: seq<Name>, devices: map<Name, Status>) {
    (set n | n in order) == devices.Keys
  }

  /** Each round makes the measure smaller. */
  lemma RoundDescends(p: Phase, order: seq<Name>, dirty: Name -> nat)
    requires Running(p) || Halted(p)
    requires Covers(order, p.m.devices) && p.live != {}
    ensures var q := Round(p, order, dirty);
            && (Running(q) || Halted(q)) && Covers(order, q.m.devices)
            && (forall n | n in order :: n in p.m.devices && n in q.m.devices)
            && 0 <= Measure(q, order) < Measure(p, order)
  {
    var names := set n | n in order;
    forall n | n in order ensures n in p.m.devices {
      assert n in names;
    }
    var q := Round(p, order, dirty);
    RoundKeepsKeys(p, order, dirty);
    if Halted(p) {
      HaltedRound(p, order, dirty);
    } else {
      RunningRound(p, order, dirty);
      var n :| n in p.m.devices && !p.m.devices[n].ready;
      assert n in names;
      CycleDescends(p.m.devices[n], 0);
      if Running(q) {
        var k :| k in q.m.devices && !q.m.devices[k].ready;
        assert k in names;
        CycleDescends(q.m.devices[k], 0);
      }
    }
  }

  lemma {:induction false} RoundKeepsKeys(p: Phase, order: seq<Name>, dirty: Name -> nat)
    requires Running(p) || Halted(p)
    requires forall n | n in order :: n in p.m.devices
    ensures Round(p, order, dirty).m.devices.Keys == p.m.devices.Keys
    decreases |order|
  {
    if order != [] {
      var n := order[0];
      if Running(p) {
        RunningTurn(p, n, dirty(n));
      } else {
        HaltedTurn(p, n, dirty(n));
      }
      RoundKeepsKeys(Turn(p, n, dirty(n)), order[1..], dirty);
    }
  }

  lemma {:induction false} RoundsEnd(p: Phase, order: seq<Name>, dirty: seq<Name -> nat>)
    requires Running(p) || Halted(p)
    requires Covers(order, p.m.devices) && forall n | n in order :: n in p.m.devices
    requires |dirty| >= Measure(p, order)
    ensures Rounds(p, order, dirty).live == {} && Rounds(p, order, dirty).m.transfers == 1
    decreases |dirty|
  {
    if p.live == {} {
      assert !Running(p);
      EndedRounds(p, order, dirty);
    } else {
      RoundDescends(p, order, if dirty == [] then (n: Name) => 0 else dirty[0]);
      if dirty != [] {
        RoundsEnd(Round(p, order, dirty[0]), order, dirty[1..]);
      }
    }
  }

  lemma {:induction false} EndedRounds(p: Phase, order: seq<Name>, dirty: seq<Name -> nat>)
    requires Halted(p) && p.live == {} && Covers(order, p.m.devices)
    requires forall n | n in order :: n in p.m.devices
    ensures Rounds(p, order, dirty).live == {} && Rounds(p, order, dirty).m.transfers == 1
    decreases |dirty|
  {
    if dirty != [] {
      HaltedRound(p, order, dirty[0]);
      RoundKeepsKeys(p, order, dirty[0]);
      EndedRounds(Round(p, order, dirty[0]), order, dirty[1..]);
    }
  }

  /** The dirty phase of a fresh manager: with round-robin passes and no errors, whatever the dirty counts, every
      loop has ended, and authority has passed once, within one round after the largest bound. */
  lemma DirtyPhaseEnds(m: Manager, order: seq<Name>, largest: nat, dirty: seq<Name -> nat>)
    requires FreshManager(m) && Covers(order, m.devices)
    requires forall n | n in m.devices :: Bound(m.devices[n]) <= largest
    requires |dirty| >= largest + 1
    ensures var end := Rounds(Phase(m, m.devices.Keys), order, dirty); end.live == {} && end.m.transfers == 1
  {
    var p := Phase(m, m.devices.Keys);
    forall n | n in order ensures n in m.devices {
      assert n in (set k | k in order);
    }
    var n :| n in m.devices;
    assert !m.devices[n].ready;
    assert Running(p);
    assert Measure(p, order) <= 1 + largest;
    RoundsEnd(p, order, dirty);
  }
}
