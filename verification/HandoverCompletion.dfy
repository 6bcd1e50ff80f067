/** The handover can always be completed: from every initial state some run ends every device's loop, transfers
    authority and leaves the destination with the guest's image. The run is the round-robin one of `Convergence`, so
    this also ties the round-robin passes of that module to the concurrent system. */
module HandoverCompletion {
  import opened Handover
  import opened HandoverSystem
  import opened HandoverInvariants
  import opened HandoverTheorems
  import opened HandoverSolo
  import opened Chains
  import C = Convergence

  const WELL: Choice := Choice(C.ALL_WELL, false, true, false)

  // ----- rounds, of any kind of turn -----

  function RoundOf<P>(turn: (P, Name, nat) -> P, p: P, order: seq<Name>, dirty: Name -> nat): P
    decreases |order|
  {
    if order == [] then p else RoundOf(turn, turn(p, order[0], dirty(order[0])), order[1..], dirty)
  }

  ghost predicate Distinct(order: seq<Name>) {
    forall i, j :: 0 <= i < j < |order| ==> order[i] != order[j]
  }

  lemma {:induction false} RoundAgrees<P>(turn: (P, Name, nat) -> P, p: P, order: seq<Name>, f: Name -> nat,
                                          g: Name -> nat)
    requires forall n | n in order :: f(n) == g(n)
    ensures RoundOf(turn, p, order, f) == RoundOf(turn, p, order, g)
    decreases |order|
  {
    if order != [] {
      RoundAgrees(turn, turn(p, order[0], f(order[0])), order[1..], f, g);
    }
  }

  lemma TurnThenRound<P>(turn: (P, Name, nat) -> P, p: P, order: seq<Name>, k: nat, later: Name -> nat)
    returns (dirty: Name -> nat)
    requires order != [] && Distinct(order)
    ensures RoundOf(turn, p, order, dirty) == RoundOf(turn, turn(p, order[0], k), order[1..], later)
  {
    dirty := x => if x == order[0] then k else later(x);
    assert order[0] !in order[1..];
    RoundAgrees(turn, turn(p, order[0], k), order[1..], dirty, later);
  }

  ghost predicate CanTurn<S(!new), P>(turn: (P, Name, nat) -> P, rests: (S, P) -> bool, p: P, n: Name) {
    exists t: S, k: nat :: rests(t, turn(p, n, k))
  }

  ghost predicate AllCanTurn<S(!new), P(!new)>(turn: (P, Name, nat) -> P, rests: (S, P) -> bool, names: set<Name>) {
    forall s: S, p: P, n | rests(s, p) && n in names :: CanTurn(turn, rests, p, n)
  }

  lemma OneTurn<S(!new), P(!new)>(turn: (P, Name, nat) -> P, rests: (S, P) -> bool, names: set<Name>, s: S, p: P,
                                  n: Name)
    returns (t: S, k: nat)
    requires rests(s, p) && n in names && AllCanTurn(turn, rests, names)
    ensures rests(t, turn(p, n, k))
  {
    assert CanTurn(turn, rests, p, n);
    t, k :| rests(t, turn(p, n, k));
  }

  /** If some turn of any named device leads on from any state, a whole round does. */
  lemma {:induction false} RoundLeadsOn<S(!new), P(!new)>(turn: (P, Name, nat) -> P, rests: (S, P) -> bool,
                                                          names: set<Name>, order: seq<Name>, s: S, p: P)
    returns (t: S, dirty: Name -> nat)
    requires rests(s, p) && Distinct(order) && forall n | n in order :: n in names
    requires AllCanTurn(turn, rests, names)
    ensures rests(t, RoundOf(turn, p, order, dirty))
    decreases |order|
  {
    if order == [] {
      t, dirty := s, _ => 0;
    } else {
      var n, rest := order[0], order[1..];
      var a, k := OneTurn(turn, rests, names, s, p, n);
      var later;
      t, later := RoundLeadsOn(turn, rests, names, rest, a, turn(p, n, k));
      dirty := TurnThenRound(turn, p, order, k, later);
    }
  }

  // ----- reaching a state -----

  function Moving(): (State, Action, State) -> bool {
    (s: State, a: Action, t: State) => Enabled(s, a) && t == Do(s, a)
  }

  /** Some run leads from the initial state `s0` to `s`. */
  ghost predicate From(s0: State, s: State) {
    Init(s0) && Linked(Moving(), s0, s)
  }

  /** That is, a run in the sense of `HandoverSystem`. */
  lemma FromIsRun(s0: State, s: State) returns (ss: seq<State>, acts: seq<Action>)
    requires From(s0, s)
    ensures Run(ss, acts) && ss[0] == s0 && ss[|acts|] == s
  {
    ss, acts :| Chain(Moving(), ss, acts, s0, s);
    forall i | 0 <= i < |acts| ensures Enabled(ss[i], acts[i]) && ss[i + 1] == Do(ss[i], acts[i]) {
      assert Moving()(ss[i], acts[i], ss[i + 1]);
    }
  }

  lemma FromIsSound(s0: State, s: State)
    requires From(s0, s)
    ensures Inv(s)
  {
    var ss, acts := FromIsRun(s0, s);
    RunKeepsInv(ss, acts, |acts|);
  }

  lemma FromIsWellFormed(s0: State, s: State)
    requires From(s0, s)
    ensures WellFormed(s)
  {
    FromIsSound(s0, s);
    InvIsWellFormed(s);
  }

  lemma MoveOf(s: State, n: Name, c: Choice)
    requires WellFormed(s) && CanStep(s, n)
    ensures Moving()(s, Thread(n, c), StepThread(s, n, c))
  {
    assert Do(s, Thread(n, c)) == StepThread(s, n, c);
  }

  lemma ThreadIsMove(s0: State, s: State, n: Name, c: Choice)
    requires From(s0, s) && CanStep(s, n)
    ensures Moving()(s, Thread(n, c), Stepping(n, c)(s))
  {
    FromIsWellFormed(s0, s);
    MoveOf(s, n, c);
  }

  lemma FromReaches(s0: State, s: State, t: State, n: Name, c: Choice)
    requires From(s0, s) && Reaches(s, t, n, c)
    ensures From(s0, t)
  {
    var ok, f, step := Able(n), Stepping(n, c), Moving();
    forall x: State | Linked(step, s0, x) && ok(x) ensures step(x, Thread(n, c), f(x)) {
      ThreadIsMove(s0, x, n, c);
    }
    var k: nat :| Throughout(ok, f, s, k) && Repeat(f, s, k) == t;
    LinkedByRepeating(step, ok, f, Thread(n, c), s0, s, k);
  }

  // ----- one pass -----

  /** The first half of a pass: sample, fetch unless told not to, decide. */
  lemma FetchedAloneFrom(s: State, n: Name) returns (t: State)
    requires Alone(s, n) && s.pc[n] == Pre && s.store[n].fetched == {}
    ensures Reaches(s, t, n, WELL) && Alone(t, n)
    ensures var (m, pre) := PreGetDirty(s.m, n, C.ALL_WELL);
            && t.m == m && t.pc == s.pc[n := PostGet]
            && |t.store[n].fetched| == if pre.more then |s.store[n].dirty| else 0
  {
    var a := PreGetDirtyAlone(s, n, WELL);
    t := a;
    if a.pc[n].Fetching? {
      t := StepDriver(a, n, WELL);
      DriverMoves(a, n, WELL);
      Then(s, a, t, n, WELL);
      assert t.pc == s.pc[n := PostGet];
    }
  }

  /** The second half: announce and settle, or end. */
  lemma SettledAloneFrom(s: State, n: Name) returns (t: State)
    requires Alone(s, n) && s.pc[n] == Announcing
    ensures Reaches(s, t, n, WELL) && Alone(t, n)
    ensures var (m, a) := PostMigrateDirty(s.m, n, |s.store[n].fetched|, C.ALL_WELL);
            t.m == m && t.pc == s.pc[n := Exit(a, Pre, Ended)]
  {
    var a := StepDriver(s, n, WELL);
    DriverMoves(s, n, WELL);
    t := PostMigrateDirtyAlone(a, n, WELL);
    Then(s, a, t, n, WELL);
    assert t.pc == s.pc[n := t.pc[n]];
  }

  /** What is left of a pass over `k` blocks once they are fetched, and whether it ends the loop. */
  function Decided(m: Manager, n: Name, k: nat): (Manager, bool)
    requires n in m.devices
  {
    var (m1, get) := PostGetDirty(m, n, k, C.ALL_WELL);
    if !get.more then (m1, true)
    else
      var (m2, migrate) := PostMigrateDirty(m1, n, k, C.ALL_WELL);
      (m2, !migrate.more)
  }

  lemma PassIsDecided(m: Manager, n: Name, dirty: nat)
    requires n in m.devices
    ensures var (m1, pre) := PreGetDirty(m, n, C.ALL_WELL);
            n in m1.devices && C.Pass(m, n, dirty) == Decided(m1, n, if pre.more then dirty else 0)
  {
  }

  lemma DecidedAloneFrom(s: State, n: Name) returns (t: State)
    requires Alone(s, n) && s.pc[n] == PostGet
    ensures Reaches(s, t, n, WELL) && Alone(t, n)
    ensures var (m, ends) := Decided(s.m, n, |s.store[n].fetched|);
            t.m == m && t.pc == s.pc[n := if ends then Ended else Pre]
  {
    var a := PostGetDirtyAlone(s, n, WELL);
    NoErrors(s.m, n, |s.store[n].fetched|);
    t := a;
    if a.pc[n].Announcing? {
      t := SettledAloneFrom(a, n);
      NoErrors(a.m, n, |a.store[n].fetched|);
      Then(s, a, t, n, WELL);
      assert t.pc == s.pc[n := t.pc[n]];
    }
  }

  lemma NoErrors(m: Manager, n: Name, dirty: nat)
    requires n in m.devices
    ensures PreGetDirty(m, n, C.ALL_WELL).1.error == NoError
    ensures PostGetDirty(m, n, dirty, C.ALL_WELL).1.error == NoError
    ensures PostMigrateDirty(m, n, dirty, C.ALL_WELL).1.error == NoError
  {
  }

  /** A whole pass, alone, is `Convergence.Pass`. */
  lemma PassAlone(s: State, n: Name) returns (t: State)
    requires Alone(s, n) && s.pc[n] == Pre && s.store[n].fetched == {}
    ensures Reaches(s, t, n, WELL) && Alone(t, n)
    ensures var (m, ends) := C.Pass(s.m, n, |s.store[n].dirty|);
            t.m == m && t.pc == s.pc[n := if ends then Ended else Pre]
  {
    PassIsDecided(s.m, n, |s.store[n].dirty|);
    var a := FetchedAloneFrom(s, n);
    t := SecondHalf(s, a, n);
  }

  lemma SecondHalf(s: State, a: State, n: Name) returns (t: State)
    requires Has(s, n) && Alone(a, n) && Reaches(s, a, n, WELL) && a.pc == s.pc[n := PostGet]
    ensures Reaches(s, t, n, WELL) && Alone(t, n)
    ensures var (m, ends) := Decided(a.m, n, |a.store[n].fetched|);
            t.m == m && t.pc == s.pc[n := if ends then Ended else Pre]
  {
    t := DecidedAloneFrom(a, n);
    Then(s, a, t, n, WELL);
    assert t.pc == s.pc[n := t.pc[n]];
  }

  // ----- rounds -----

  /** Between passes: no mutex is held and every thread is at the start of a pass or at its end. */
  ghost predicate Resting(s: State, live: set<Name>) {
    && s.locks == Locks(Free, Free, Free, Free)
    && s.pc.Keys == s.m.devices.Keys == s.store.Keys
    && forall n | n in s.pc :: s.pc[n] == if n in live then Pre else Ended
  }

  lemma NothingFetched(s0: State, s: State, n: Name)
    requires From(s0, s) && Has(s, n) && s.pc[n] == Pre
    ensures s.store[n].fetched == {}
  {
    FromIsSound(s0, s);
    assert StorePhase(s, n);
  }

  lemma SameDevices(s0: State, s: State)
    requires From(s0, s)
    ensures s.pc.Keys == s.m.devices.Keys == s.store.Keys
  {
    FromIsSound(s0, s);
  }

  lemma RestsAfter(s: State, t: State, live: set<Name>, n: Name, ends: bool)
    requires Resting(s, live) && n in s.pc && n in live && t.locks == Locks(Free, Free, Free, Free)
    requires t.pc == s.pc[n := if ends then Ended else Pre] && t.pc.Keys == t.m.devices.Keys == t.store.Keys
    ensures Resting(t, if ends then live - {n} else live) && t.pc.Keys == s.pc.Keys
  {
  }

  lemma PassFrom(s0: State, s: State, live: set<Name>, n: Name) returns (t: State, k: nat)
    requires From(s0, s) && Resting(s, live) && n in s.m.devices && n in live
    ensures From(s0, t) && Resting(t, if C.Pass(s.m, n, k).1 then live - {n} else live)
    ensures t.m == C.Pass(s.m, n, k).0 && t.pc.Keys == s.pc.Keys
  {
    NothingFetched(s0, s, n);
    k := |s.store[n].dirty|;
    t := PassAlone(s, n);
    FromReaches(s0, s, t, n, WELL);
    SameDevices(s0, t);
    RestsAfter(s, t, live, n, C.Pass(s.m, n, k).1);
  }

  lemma TurnAlone(s0: State, s: State, live: set<Name>, n: Name) returns (t: State, k: nat)
    requires From(s0, s) && Resting(s, live) && n in s.m.devices
    ensures From(s0, t)
    ensures var q := C.Turn(C.Phase(s.m, live), n, k); t.m == q.m && Resting(t, q.live)
    ensures t.m.devices.Keys == s.m.devices.Keys
  {
    t, k := s, 0;
    if n in live {
      t, k := PassFrom(s0, s, live, n);
    }
  }

  function Turning(): (C.Phase, Name, nat) -> C.Phase {
    (p: C.Phase, n: Name, k: nat) => C.Turn(p, n, k)
  }

  lemma {:induction false} RoundsAreRounds(p: C.Phase, order: seq<Name>, dirty: Name -> nat)
    ensures RoundOf(Turning(), p, order, dirty) == C.Round(p, order, dirty)
    decreases |order|
  {
    if order != [] {
      RoundsAreRounds(C.Turn(p, order[0], dirty(order[0])), order[1..], dirty);
    }
  }

  ghost predicate AtRest(s0: State, names: set<Name>, s: State, p: C.Phase) {
    From(s0, s) && s.m == p.m && Resting(s, p.live) && p.m.devices.Keys == names
  }

  lemma TurnLeadsOn(s0: State, names: set<Name>, s: State, p: C.Phase, n: Name) returns (t: State, k: nat)
    requires AtRest(s0, names, s, p) && n in names
    ensures AtRest(s0, names, t, Turning()(p, n, k))
  {
    t, k := TurnAlone(s0, s, p.live, n);
  }

  ghost function Rests(s0: State, names: set<Name>): (State, C.Phase) -> bool {
    (s: State, p: C.Phase) => AtRest(s0, names, s, p)
  }

  lemma AllTurnsLeadOn(s0: State, names: set<Name>)
    ensures AllCanTurn(Turning(), Rests(s0, names), names)
  {
    var turn, rests := Turning(), Rests(s0, names);
    forall s: State, p: C.Phase, n | rests(s, p) && n in names ensures CanTurn(turn, rests, p, n) {
      var t, k := TurnLeadsOn(s0, names, s, p, n);
      assert rests(t, turn(p, n, k));
    }
  }

  lemma RoundAlone(s0: State, s: State, live: set<Name>, order: seq<Name>) returns (t: State, dirty: Name -> nat)
    requires From(s0, s) && Resting(s, live) && Distinct(order) && forall n | n in order :: n in s.m.devices
    ensures From(s0, t)
    ensures var q := C.Round(C.Phase(s.m, live), order, dirty); t.m == q.m && Resting(t, q.live)
  {
    var p, names := C.Phase(s.m, live), s.m.devices.Keys;
    AllTurnsLeadOn(s0, names);
    assert Rests(s0, names)(s, p);
    t, dirty := RoundLeadsOn(Turning(), Rests(s0, names), names, order, s, p);
    RoundsAreRounds(p, order, dirty);
  }

  /** Round after round until every loop has ended. */
  lemma {:induction false} RoundsAlone(s0: State, s: State, live: set<Name>, order: seq<Name>) returns (t: State)
    requires From(s0, s) && Resting(s, live) && Distinct(order) && C.Covers(order, s.m.devices)
    requires forall n | n in order :: n in s.m.devices
    requires C.Running(C.Phase(s.m, live)) || C.Halted(C.Phase(s.m, live))
    ensures From(s0, t) && Resting(t, {})
    decreases C.Measure(C.Phase(s.m, live), order)
  {
    var p := C.Phase(s.m, live);
    if live == {} {
      t := s;
    } else {
      var a, dirty := RoundAlone(s0, s, live, order);
      C.RoundDescends(p, order, dirty);
      var q := C.Round(p, order, dirty);
      t := RoundsAlone(s0, a, q.live, order);
    }
  }

  lemma {:induction false} InSomeOrder(names: set<Name>) returns (order: seq<Name>)
    ensures Distinct(order) && forall n :: n in order <==> n in names
    decreases names
  {
    if names == {} {
      order := [];
    } else {
      var n :| n in names;
      var rest := InSomeOrder(names - {n});
      order := [n] + rest;
    }
  }

  lemma FreshRuns(m: Manager)
    requires FreshManager(m)
    ensures C.Running(C.Phase(m, m.devices.Keys))
  {
    var n :| n in m.devices;
    assert FreshStatus(m.devices[n]);
  }

  lemma InitRests(s: State)
    requires Init(s)
    ensures Resting(s, s.m.devices.Keys)
  {
  }

  /** Some run ends every device's loop without an error, and so transfers authority exactly once. */
  lemma CanTransfer(s0: State) returns (t: State)
    requires Init(s0)
    ensures From(s0, t) && t.m.transfers == 1 && t.m.transferCompleted
    ensures forall n | n in t.pc :: t.pc[n] == Ended
  {
    InitRests(s0);
    FreshRuns(s0.m);
    LinkedToItself(Moving(), s0);
    var order := InSomeOrder(s0.m.devices.Keys);
    assert C.Covers(order, s0.m.devices);
    t := RoundsAlone(s0, s0, s0.m.devices.Keys, order);
    EndedTransferred(s0, t);
  }

  lemma EndedTransferred(s0: State, t: State)
    requires From(s0, t) && forall n | n in t.pc :: t.pc[n] == Ended
    ensures t.m.transfers == 1 && t.m.transferCompleted
  {
    FromIsSound(s0, t);
    AllEndedTransferred(t);
  }

  // ----- draining the copies -----

  lemma FromMove(s0: State, s: State, a: Action)
    requires From(s0, s) && Enabled(s, a)
    ensures From(s0, Do(s, a))
  {
    LinkedOn(Moving(), s0, s, a, Do(s, a));
  }

  /** Moves left until nothing of a device is in flight. */
  function Left(st: Store): nat {
    2 * |st.pending| + |st.wire|
  }

  lemma DeliverLess(st: Store, b: nat)
    requires b in st.wire && b < |st.dst|
    ensures Left(Delivered(st, b)) < Left(st)
  {
    assert st.wire.Keys == (st.wire - {b}).Keys + {b};
  }

  lemma ReadLess(st: Store, b: nat)
    requires b in st.pending && b < |st.src| && st.wire == map[]
    ensures Left(Read(st, b)) < Left(st)
  {
    assert st.pending == (st.pending - multiset{b}) + multiset{b};
    assert Read(st, b).wire == map[b := st.src[b]];
  }

  lemma DrainMove(s0: State, s: State, n: Name) returns (t: State)
    requires From(s0, s) && n in s.pc && n in s.store && !Drained(s.store[n])
    ensures From(s0, t) && n in t.store && t == SetStore(s, n, t.store[n]) && Left(t.store[n]) < Left(s.store[n])
  {
    FromIsWellFormed(s0, s);
    var st := s.store[n];
    assert StoreFormed(st);
    if b :| b in st.wire {
      DeliverLess(st, b);
      t := Do(s, Deliver(n, b));
      FromMove(s0, s, Deliver(n, b));
    } else {
      assert st.wire == map[];
      var b :| b in st.pending;
      ReadLess(st, b);
      t := Do(s, ReadBlock(n, b));
      FromMove(s0, s, ReadBlock(n, b));
    }
  }

  lemma SetTwice(s: State, n: Name, x: Store, y: Store)
    ensures SetStore(SetStore(s, n, x), n, y) == SetStore(s, n, y)
  {
    assert s.store[n := x][n := y] == s.store[n := y];
  }

  lemma SetSame(s: State, n: Name)
    requires n in s.store
    ensures SetStore(s, n, s.store[n]) == s
  {
    assert s.store[n := s.store[n]] == s.store;
  }

  lemma {:induction false} DrainDevice(s0: State, s: State, n: Name) returns (t: State)
    requires From(s0, s) && n in s.pc && n in s.store
    ensures From(s0, t) && n in t.store && t == SetStore(s, n, t.store[n]) && Drained(t.store[n])
    decreases Left(s.store[n])
  {
    if Drained(s.store[n]) {
      t := s;
      SetSame(s, n);
    } else {
      var a := DrainMove(s0, s, n);
      t := DrainDevice(s0, a, n);
      SetTwice(s, n, a.store[n], t.store[n]);
    }
  }

  lemma {:induction false} DrainAll(s0: State, s: State, names: set<Name>) returns (t: State)
    requires From(s0, s) && names <= s.pc.Keys && s.pc.Keys == s.store.Keys
    ensures From(s0, t) && t.m == s.m && t.pc == s.pc && t.store.Keys == s.store.Keys
    ensures forall n | n in t.store && (n in names || (n in s.store && Drained(s.store[n]))) :: Drained(t.store[n])
    decreases names
  {
    if names == {} {
      t := s;
    } else {
      var n :| n in names;
      var a := DrainDevice(s0, s, n);
      t := DrainAll(s0, a, names - {n});
    }
  }

  /** From every initial state there is a run at whose end every loop has ended, authority has passed once and every
      device of the destination holds the guest's image. */
  lemma CanComplete(s0: State) returns (ss: seq<State>, acts: seq<Action>)
    requires Init(s0)
    ensures Run(ss, acts) && ss[0] == s0
    ensures var t := ss[|acts|];
            && t.m.transfers == 1
            && (forall n | n in t.pc :: t.pc[n] == Ended)
            && (forall n | n in t.store :: t.store[n].dst == t.store[n].guest == t.store[n].src)
  {
    var a := CanTransfer(s0);
    SameDevices(s0, a);
    var t := DrainAll(s0, a, a.pc.Keys);
    ss, acts := FromIsRun(s0, t);
    HandoverPreservesImage(ss, acts, |acts|);
  }

  /** And there are initial states, with the guest running and something left to send. */
  lemma SomeStart() returns (s: State)
    ensures Init(s) && s.running && MEMORY in s.store && s.store[MEMORY].unflushed != {} && s.store[MEMORY].dirty != {}
  {
    var d := Status(0, 1, 0, 0, 1, false, false, false);
    var st := Store([[1], [0]], [[0], [0]], [[0], [1]], {0}, {1}, {}, multiset{}, map[], 0);
    s := State(Manager(FreshVM(true, true), map[MEMORY := d], {}, false, false, false, 0), map[MEMORY := Pre],
               Locks(Free, Free, Free, Free), true, map[MEMORY := st]);
    assert s.m.devices.Keys == {MEMORY} && s.pc.Keys == {MEMORY} && s.store.Keys == {MEMORY};
    assert MEMORY in s.m.devices;
    assert st.src[1] != st.dst[1];
  }
}
