/** Forwarding ports (forward_ports.go:66-285, 303-362): the set-up callbacks run concurrently and may fail at any
    point, each collects its undo functions, and one Close runs them all in reverse. */
module PortForwarding {

  /** An address as text, and a port as text. */
  type AddressText = a: string | '[' !in a
  type PortText = p: string | ':' !in p

  /** What a callback knows about its port once host and internal address are resolved. */
  datatype Port = Port(
    loopback: bool, host: string, port: string, internalIP: AddressText, internalPort: PortText, protocol: string)

  datatype Rule = Rule(table: string, chain: string, spec: seq<string>)

  datatype Undo = Delete(rule: Rule) | Unforward(portID: nat)

  /** net.JoinHostPort: an address with colons is put in brackets. */
  function JoinHostPort(host: string, port: string): string {
    if ':' in host then "[" + host + "]:" + port else host + ":" + port
  }

  /** The rules of a port, in the order they are appended. */
  function RulesOf(p: Port): seq<Rule> {
    var to := ["-j", "DNAT", "--to-destination", JoinHostPort(p.internalIP, p.internalPort)];
    (if p.loopback then []
     else [Rule("filter", "FORWARD", ["-d", p.internalIP, "-j", "ACCEPT"]),
           Rule("filter", "FORWARD", ["-s", p.internalIP, "-j", "ACCEPT"])]) +
    [Rule("nat", "OUTPUT", ["-p", p.protocol, "-d", p.host, "--dport", p.port] + to),
     Rule("nat", "PREROUTING", ["-p", p.protocol, "--dport", p.port, "-d", p.host] + to),
     Rule("nat", "POSTROUTING", ["-p", p.protocol, "-d", p.internalIP, "--dport", p.internalPort, "-j", "MASQUERADE"])]
  }

  /** The rules of each port; everything up to the last theorem holds for any plan. */
  function Plan(ports: seq<Port>): seq<seq<Rule>> {
    seq(|ports|, i requires 0 <= i < |ports| => RulesOf(ports[i]))
  }

  // ----- set-up -----

  datatype Stage = Working | Returned | Collected

  /** One callback: rules appended, deletes recorded, whether OnAfterPortForward ran, and the undo functions so far. */
  datatype Worker = Worker(appended: nat, recorded: nat, announced: bool, stage: Stage, local: seq<Undo>)

  datatype State = State(rules: multiset<Rule>, workers: seq<Worker>, defers: seq<seq<Undo>>)

  datatype Act =
    | Append(i: nat)
    | Record(i: nat)
    | Fail(i: nat)
    | Announce(i: nat)
    | RecordHook(i: nat)
    | Collect(i: nat)

  /** A callback fails only before or while appending a rule, never with a rule it has not recorded. */
  predicate Possible(plan: seq<seq<Rule>>, s: State, a: Act) {
    && a.i < |s.workers| == |plan|
    && var w, n := s.workers[a.i], |plan[a.i]|;
       match a
       case Append(_) => w.stage.Working? && w.recorded == w.appended < n
       case Record(_) => w.stage.Working? && w.recorded < w.appended <= n
       case Fail(_) => w.stage.Working? && w.recorded == w.appended < n
       case Announce(_) => w.stage.Working? && w.recorded == n && !w.announced
       case RecordHook(_) => w.stage.Working? && w.announced
       case Collect(_) => w.stage.Returned?
  }

  function Worked(rs: seq<Rule>, w: Worker, a: Act): Worker
    requires a.Record? ==> w.recorded < |rs|
  {
    match a
    case Append(_) => w.(appended := w.appended + 1)
    case Record(_) => w.(local := w.local + [Delete(rs[w.recorded])], recorded := w.recorded + 1)
    case Fail(_) => w.(stage := Returned)
    case Announce(_) => w.(announced := true)
    case RecordHook(i) => w.(local := w.local + [Unforward(i)], stage := Returned)
    case Collect(_) => w.(stage := Collected)
  }

  function Next(plan: seq<seq<Rule>>, s: State, a: Act): State
    requires Possible(plan, s, a)
  {
    var w := s.workers[a.i];
    State(if a.Append? then s.rules + multiset{plan[a.i][w.appended]} else s.rules,
          s.workers[a.i := Worked(plan[a.i], w, a)],
          if a.Collect? then s.defers + [w.local] else s.defers)
  }

  predicate Start(plan: seq<seq<Rule>>, s: State) {
    && |s.workers| == |plan| && s.defers == []
    && forall i | 0 <= i < |s.workers| :: s.workers[i] == Worker(0, 0, false, Working, [])
  }

  predicate Run(plan: seq<seq<Rule>>, ss: seq<State>, acts: seq<Act>) {
    && |ss| == |acts| + 1
    && Start(plan, ss[0])
    && forall k | 0 <= k < |acts| :: Possible(plan, ss[k], acts[k]) && ss[k + 1] == Next(plan, ss[k], acts[k])
  }

  /** wg.Wait has returned. */
  predicate AllCollected(plan: seq<seq<Rule>>, s: State) {
    |s.workers| == |plan| && forall i | 0 <= i < |s.workers| :: s.workers[i].stage.Collected?
  }

  // ----- counting -----

  function Times<T(==)>(s: seq<T>, x: T): nat {
    if s == [] then 0 else Times(s[..|s| - 1], x) + if s[|s| - 1] == x then 1 else 0
  }

  lemma {:induction false} TimesConcat<T>(a: seq<T>, b: seq<T>, x: T)
    ensures Times(a + b, x) == Times(a, x) + Times(b, x)
    decreases |b|
  {
    if b == [] {
      assert a + b == a;
    } else {
      assert (a + b)[..|a + b| - 1] == a + b[..|b| - 1];
      TimesConcat(a, b[..|b| - 1], x);
    }
  }

  function Flatten(lists: seq<seq<Undo>>): seq<Undo> {
    if lists == [] then [] else Flatten(lists[..|lists| - 1]) + lists[|lists| - 1]
  }

  /** How many copies of rule `r` a callback still answers for: those it appended, until its list is collected. */
  function Owed(rs: seq<Rule>, w: Worker, r: Rule): nat {
    if w.stage.Collected? || w.appended > |rs| then 0 else Times(rs[..w.appended], r)
  }

  function AllOwed(plan: seq<seq<Rule>>, ws: seq<Worker>, r: Rule): nat
    requires |ws| == |plan|
    decreases |ws|
  {
    if ws == [] then 0
    else AllOwed(plan[..|ws| - 1], ws[..|ws| - 1], r) + Owed(plan[|ws| - 1], ws[|ws| - 1], r)
  }

  lemma {:induction false} OwedUpdate(plan: seq<seq<Rule>>, ws: seq<Worker>, i: nat, w: Worker, r: Rule)
    requires |ws| == |plan| && i < |ws|
    ensures AllOwed(plan, ws[i := w], r) + Owed(plan[i], ws[i], r) == AllOwed(plan, ws, r) + Owed(plan[i], w, r)
    decreases |ws|
  {
    var k := |ws| - 1;
    if i < k {
      OwedUpdate(plan[..k], ws[..k], i, w, r);
      assert ws[i := w][..k] == ws[..k][i := w];
    } else {
      assert ws[i := w][..k] == ws[..k];
    }
  }

  lemma {:induction false} NothingOwed(plan: seq<seq<Rule>>, ws: seq<Worker>, r: Rule)
    requires |ws| == |plan|
    requires forall i | 0 <= i < |ws| :: ws[i].stage.Collected? || ws[i].appended == 0
    ensures AllOwed(plan, ws, r) == 0
    decreases |ws|
  {
    if ws != [] {
      NothingOwed(plan[..|ws| - 1], ws[..|ws| - 1], r);
    }
  }

  // ----- what a callback's list holds -----

  function Deletes(rs: seq<Rule>, n: nat): (list: seq<Undo>)
    requires n <= |rs|
    ensures |list| == n && forall k | 0 <= k < n :: list[k] == Delete(rs[k])
  {
    if n == 0 then [] else Deletes(rs, n - 1) + [Delete(rs[n - 1])]
  }

  lemma {:induction false} DeletesTimes(rs: seq<Rule>, n: nat, r: Rule)
    requires n <= |rs|
    ensures Times(Deletes(rs, n), Delete(r)) == Times(rs[..n], r)
  {
    if n > 0 {
      DeletesTimes(rs, n - 1, r);
      var list := Deletes(rs, n);
      assert list[..n - 1] == Deletes(rs, n - 1);
      assert rs[..n][..n - 1] == rs[..n - 1];
    }
  }

  lemma {:induction false} NoHooks(list: seq<Undo>, i: nat)
    requires forall k | 0 <= k < |list| :: list[k].Delete?
    ensures Times(list, Unforward(i)) == 0
  {
    if list != [] {
      NoHooks(list[..|list| - 1], i);
    }
  }

  /** A callback's list: the deletes it recorded and, if it got through, its hook. */
  predicate WorkerKept(rs: seq<Rule>, i: nat, w: Worker) {
    && w.recorded <= w.appended <= w.recorded + 1 && w.appended <= |rs|
    && (w.announced || !w.stage.Working? ==> w.recorded == w.appended)
    && (w.announced ==> w.recorded == |rs|)
    && (w.recorded == |rs| && !w.stage.Working? ==> w.announced)
    && w.local == Deletes(rs, w.recorded) + if w.announced && !w.stage.Working? then [Unforward(i)] else []
  }

  lemma WorkedKept(plan: seq<seq<Rule>>, s: State, a: Act)
    requires Possible(plan, s, a) && WorkerKept(plan[a.i], a.i, s.workers[a.i])
    ensures WorkerKept(plan[a.i], a.i, Worked(plan[a.i], s.workers[a.i], a))
  {
  }

  lemma SingleTimes(u: Undo, v: Undo)
    ensures Times([u], v) == if u == v then 1 else 0
  {
    assert [u][..0] == [];
  }

  lemma LocalTimes(rs: seq<Rule>, i: nat, w: Worker, r: Rule, j: nat)
    requires WorkerKept(rs, i, w) && !w.stage.Working?
    ensures Times(w.local, Delete(r)) == Times(rs[..w.appended], r)
    ensures Times(w.local, Unforward(j)) == if i == j && w.announced then 1 else 0
  {
    var deletes, hook := Deletes(rs, w.recorded), if w.announced then [Unforward(i)] else [];
    TimesConcat(deletes, hook, Delete(r));
    TimesConcat(deletes, hook, Unforward(j));
    DeletesTimes(rs, w.recorded, r);
    NoHooks(deletes, j);
    if w.announced {
      SingleTimes(Unforward(i), Delete(r));
      SingleTimes(Unforward(i), Unforward(j));
    }
  }

  // ----- the invariant -----

  ghost predicate RuleKept(plan: seq<seq<Rule>>, s: State, initial: multiset<Rule>, r: Rule) {
    && |s.workers| == |plan|
    && s.rules[r] == initial[r] + Times(Flatten(s.defers), Delete(r)) + AllOwed(plan, s.workers, r)
  }

  /** Each hook is on the collected list once, when its port was set up completely, and otherwise not at all. */
  ghost predicate HookKept(plan: seq<seq<Rule>>, s: State, i: nat) {
    && |s.workers| == |plan|
    && Times(Flatten(s.defers), Unforward(i)) ==
       if i < |plan| && s.workers[i].stage.Collected? && s.workers[i].announced then 1 else 0
  }

  ghost predicate Kept(plan: seq<seq<Rule>>, s: State, initial: multiset<Rule>) {
    && |s.workers| == |plan|
    && (forall i | 0 <= i < |plan| :: WorkerKept(plan[i], i, s.workers[i]))
    && (forall i | 0 <= i < |plan| && s.workers[i].stage.Collected? :: s.workers[i].local in s.defers)
    && (forall r: Rule :: RuleKept(plan, s, initial, r))
    && (forall i: nat :: HookKept(plan, s, i))
  }

  lemma CollectTimes(plan: seq<seq<Rule>>, s: State, a: Act, u: Undo)
    requires Possible(plan, s, a)
    ensures Times(Flatten(Next(plan, s, a).defers), u) ==
            Times(Flatten(s.defers), u) + if a.Collect? then Times(s.workers[a.i].local, u) else 0
  {
    if a.Collect? {
      var list := s.workers[a.i].local;
      assert (s.defers + [list])[..|s.defers|] == s.defers;
      TimesConcat(Flatten(s.defers), list, u);
    }
  }

  lemma AppendOwed(rs: seq<Rule>, n: nat, r: Rule)
    requires n < |rs|
    ensures Times(rs[..n + 1], r) == Times(rs[..n], r) + if rs[n] == r then 1 else 0
  {
    assert rs[..n + 1][..n] == rs[..n];
  }

  lemma NextKeepsRule(plan: seq<seq<Rule>>, s: State, a: Act, initial: multiset<Rule>, r: Rule)
    requires Possible(plan, s, a) && WorkerKept(plan[a.i], a.i, s.workers[a.i]) && RuleKept(plan, s, initial, r)
    ensures RuleKept(plan, Next(plan, s, a), initial, r)
  {
    var w := s.workers[a.i];
    OwedUpdate(plan, s.workers, a.i, Worked(plan[a.i], w, a), r);
    CollectTimes(plan, s, a, Delete(r));
    if a.Append? {
      AppendOwed(plan[a.i], w.appended, r);
    }
    if a.Collect? {
      LocalTimes(plan[a.i], a.i, w, r, 0);
    }
  }

  lemma NextKeepsHook(plan: seq<seq<Rule>>, s: State, a: Act, i: nat)
    requires Possible(plan, s, a) && WorkerKept(plan[a.i], a.i, s.workers[a.i]) && HookKept(plan, s, i)
    ensures HookKept(plan, Next(plan, s, a), i)
  {
    CollectTimes(plan, s, a, Unforward(i));
    if a.Collect? {
      LocalTimes(plan[a.i], a.i, s.workers[a.i], Rule("", "", []), i);
    }
  }

  lemma NextKeeps(plan: seq<seq<Rule>>, s: State, a: Act, initial: multiset<Rule>)
    requires Kept(plan, s, initial) && Possible(plan, s, a)
    ensures Kept(plan, Next(plan, s, a), initial)
  {
    WorkedKept(plan, s, a);
    forall r: Rule ensures RuleKept(plan, Next(plan, s, a), initial, r) {
      NextKeepsRule(plan, s, a, initial, r);
    }
    forall i: nat ensures HookKept(plan, Next(plan, s, a), i) {
      NextKeepsHook(plan, s, a, i);
    }
  }

  lemma StartKept(plan: seq<seq<Rule>>, s: State)
    requires Start(plan, s)
    ensures Kept(plan, s, s.rules)
  {
    forall r: Rule ensures RuleKept(plan, s, s.rules, r) {
      NothingOwed(plan, s.workers, r);
    }
  }

  lemma {:induction false} RunKeeps(plan: seq<seq<Rule>>, ss: seq<State>, acts: seq<Act>, k: nat)
    requires Run(plan, ss, acts) && k < |ss|
    ensures Kept(plan, ss[k], ss[0].rules)
  {
    if k == 0 {
      StartKept(plan, ss[0]);
    } else {
      RunKeeps(plan, ss, acts, k - 1);
      NextKeeps(plan, ss[k - 1], acts[k - 1], ss[0].rules);
      assert ss[k - 1 + 1] == ss[k];
    }
  }

  // ----- Close -----

  function Reversed(s: seq<Undo>): (r: seq<Undo>)
    ensures |r| == |s| && forall k | 0 <= k < |s| :: r[k] == s[|s| - 1 - k]
  {
    if s == [] then [] else [s[|s| - 1]] + Reversed(s[..|s| - 1])
  }

  lemma Regroup(a: seq<Undo>, b: seq<Undo>, c: seq<Undo>)
    ensures a + (b + c) == (a + b) + c
  {
  }

  lemma ReversedStep(ran: seq<Undo>, stack: seq<Undo>, whole: seq<Undo>)
    requires stack != [] && ran + Reversed(stack) == whole
    ensures ran + [stack[|stack| - 1]] + Reversed(stack[..|stack| - 1]) == whole
  {
    Regroup(ran, [stack[|stack| - 1]], Reversed(stack[..|stack| - 1]));
  }

  /** Every rule is there once for each delete on the list, beyond the initial ones. */
  ghost predicate Balanced(rules: multiset<Rule>, initial: multiset<Rule>, list: seq<Undo>) {
    forall r: Rule :: rules[r] == initial[r] + Times(list, Delete(r))
  }

  lemma BalancedStep(rules: multiset<Rule>, initial: multiset<Rule>, list: seq<Undo>)
    requires list != [] && Balanced(rules, initial, list)
    ensures var u, rest := list[|list| - 1], list[..|list| - 1];
            match u
            case Delete(r) => r in rules && Balanced(rules - multiset{r}, initial, rest)
            case Unforward(_) => Balanced(rules, initial, rest)
  {
    var u := list[|list| - 1];
    if u.Delete? {
      assert rules[u.rule] == initial[u.rule] + Times(list, u);
    }
  }

  lemma BalancedEnd(rules: multiset<Rule>, initial: multiset<Rule>)
    requires Balanced(rules, initial, [])
    ensures rules == initial
  {
  }

  class ForwardedPorts {
    const deferFuncs: seq<seq<Undo>>
    var rules: multiset<Rule>
    /** Every undo function that ran, in order. */
    var ran: seq<Undo>
    /** The deletes that did not find their rule. */
    var missed: seq<Rule>

    constructor (deferFuncs: seq<seq<Undo>>, rules: multiset<Rule>)
      ensures this.deferFuncs == deferFuncs && this.rules == rules && ran == [] && missed == []
    {
      this.deferFuncs, this.rules, ran, missed := deferFuncs, rules, [], [];
    }

    method RunUndo(u: Undo)
      modifies this
      ensures ran == old(ran) + [u]
      ensures u.Delete? && u.rule !in old(rules) ==> rules == old(rules) && missed == old(missed) + [u.rule]
      ensures u.Delete? && u.rule in old(rules) ==> rules == old(rules) - multiset{u.rule} && missed == old(missed)
      ensures u.Unforward? ==> rules == old(rules) && missed == old(missed)
    {
      ran := ran + [u];
      if u.Delete? {
        if u.rule in rules {
          rules := rules - multiset{u.rule};
        } else {
          missed := missed + [u.rule];
        }
      }
    }

    /** The functions in the order Close defers them (lines 272-281). */
    method Defer() returns (stack: seq<Undo>)
      ensures stack == Flatten(deferFuncs)
    {
      stack := [];
      for i := 0 to |deferFuncs|
        invariant stack == Flatten(deferFuncs[..i])
      {
        ghost var before := stack;
        for j := 0 to |deferFuncs[i]|
          invariant stack == before + deferFuncs[i][..j]
        {
          stack := stack + [deferFuncs[i][j]];
        }
        assert deferFuncs[i][..|deferFuncs[i]|] == deferFuncs[i];
        assert deferFuncs[..i + 1][..i] == deferFuncs[..i];
      }
      assert deferFuncs[..|deferFuncs|] == deferFuncs;
    }

    /** Deferred functions run last to first. */
    method Close(ghost initial: multiset<Rule>)
      requires Balanced(rules, initial, Flatten(deferFuncs)) && ran == []
      modifies this
      ensures rules == initial && missed == old(missed)
      ensures ran == Reversed(Flatten(deferFuncs))
    {
      var stack := Defer();
      ghost var whole := Reversed(stack);
      while stack != []
        invariant Balanced(rules, initial, stack) && missed == old(missed)
        invariant ran + Reversed(stack) == whole
        decreases |stack|
      {
        var u := stack[|stack| - 1];
        ReversedStep(ran, stack, whole);
        BalancedStep(rules, initial, stack);
        RunUndo(u);
        stack := stack[..|stack| - 1];
      }
      BalancedEnd(rules, initial);
    }
  }

  // ----- the whole life -----

  lemma {:induction false} ListInFlatten(lists: seq<seq<Undo>>, d: nat) returns (at: nat)
    requires d < |lists|
    ensures at + |lists[d]| <= |Flatten(lists)|
    ensures forall k | 0 <= k < |lists[d]| :: Flatten(lists)[at + k] == lists[d][k]
    decreases |lists|
  {
    var k := |lists| - 1;
    if d < k {
      at := ListInFlatten(lists[..k], d);
    } else {
      at := |Flatten(lists[..k])|;
    }
  }

  /** The hook of port `i` and, right after it, the port's deletes, last rule first. */
  predicate RunsAt(ran: seq<Undo>, rs: seq<Rule>, i: nat, at: nat) {
    && at + |rs| < |ran| && ran[at] == Unforward(i)
    && forall k | 0 <= k < |rs| :: ran[at + |rs| - k] == Delete(rs[k])
  }

  ghost predicate HookThenDeletes(ran: seq<Undo>, rs: seq<Rule>, i: nat) {
    exists at: nat :: RunsAt(ran, rs, i, at)
  }

  lemma HookRunsFirst(plan: seq<seq<Rule>>, s: State, initial: multiset<Rule>, i: nat)
    requires Kept(plan, s, initial) && AllCollected(plan, s) && i < |plan| && s.workers[i].announced
    ensures HookThenDeletes(Reversed(Flatten(s.defers)), plan[i], i)
  {
    var rs, list := plan[i], s.workers[i].local;
    var all, n := Flatten(s.defers), |plan[i]|;
    assert WorkerKept(rs, i, s.workers[i]) && list in s.defers;
    var d: nat :| d < |s.defers| && s.defers[d] == list;
    var at := ListInFlatten(s.defers, d);
    var from := |all| - 1 - (at + n);
    var ran := Reversed(all);
    assert ran[from] == all[at + n] == list[n];
    forall k | 0 <= k < n ensures ran[from + n - k] == Delete(rs[k]) {
      assert ran[from + n - k] == all[at + k] == list[k];
    }
    assert RunsAt(ran, rs, i, from);
  }

  lemma {:induction false} ReversedTimes(s: seq<Undo>, u: Undo)
    ensures Times(Reversed(s), u) == Times(s, u)
  {
    if s == [] {
      assert Reversed(s) == s;
    } else {
      var last, front := s[|s| - 1], s[..|s| - 1];
      ReversedTimes(front, u);
      TimesConcat([last], Reversed(front), u);
      SingleTimes(last, u);
    }
  }

  /** Set-up with any interleaving and any failures, then one Close: the rules are those from before, and no delete
      missed its rule. A port that was set up completely has its hook run once, right before its own deletes in
      reverse order; the hook of a port that was not is never run. */
  method SetUpAndClose(ports: seq<Port>, s: State, ghost ss: seq<State>, ghost acts: seq<Act>)
    returns (f: ForwardedPorts)
    requires Run(Plan(ports), ss, acts) && ss[|ss| - 1] == s && AllCollected(Plan(ports), s)
    ensures f.rules == ss[0].rules && f.missed == []
    ensures forall i: nat | i < |ports| && s.workers[i].announced :: HookThenDeletes(f.ran, RulesOf(ports[i]), i)
    ensures forall i: nat :: Times(f.ran, Unforward(i)) == if i < |ports| && s.workers[i].announced then 1 else 0
  {
    ghost var plan := Plan(ports);
    RunKeeps(plan, ss, acts, |ss| - 1);
    CollectedBalanced(plan, s, ss[0].rules);
    f := new ForwardedPorts(s.defers, s.rules);
    f.Close(ss[0].rules);
    forall i: nat | i < |ports| && s.workers[i].announced ensures HookThenDeletes(f.ran, RulesOf(ports[i]), i) {
      HookRunsFirst(plan, s, ss[0].rules, i);
      assert plan[i] == RulesOf(ports[i]);
    }
    forall i: nat ensures Times(f.ran, Unforward(i)) == if i < |ports| && s.workers[i].announced then 1 else 0 {
      assert HookKept(plan, s, i);
      ReversedTimes(Flatten(s.defers), Unforward(i));
    }
  }

  lemma CollectedBalanced(plan: seq<seq<Rule>>, s: State, initial: multiset<Rule>)
    requires Kept(plan, s, initial) && AllCollected(plan, s)
    ensures Balanced(s.rules, initial, Flatten(s.defers))
  {
    forall r: Rule ensures s.rules[r] == initial[r] + Times(Flatten(s.defers), Delete(r)) {
      assert RuleKept(plan, s, initial, r);
      NothingOwed(plan, s.workers, r);
    }
  }
}
