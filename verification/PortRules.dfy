/** What the rules of forwarded ports do to packets, read from the rules' own text: where a packet to a frontend is
    sent, which packets are masqueraded and which accepted, at any moment between set-up and Close. */
module PortRules {
  import opened PortForwarding

  // ----- reading a rule -----

  datatype Option<T> = None | Some(value: T)

  datatype Packet = Packet(protocol: string, source: string, dest: string, dport: string)

  datatype Verdict = Passes | Accepted | Masqueraded | SentTo(ip: string, port: string) | Unknown

  /** Whether a packet has what one option of a rule asks for; targets and their parameters ask for nothing. */
  predicate Holds(option: string, value: string, k: Packet) {
    if option == "-p" then k.protocol == value
    else if option == "-s" then k.source == value
    else if option == "-d" then k.dest == value
    else if option == "--dport" then k.dport == value
    else true
  }

  predicate Matches(spec: seq<string>, k: Packet) {
    |spec| < 2 || (Holds(spec[0], spec[1], k) && Matches(spec[2..], k))
  }

  function Value(spec: seq<string>, option: string): Option<string> {
    if |spec| < 2 then None
    else if spec[0] == option then Some(spec[1])
    else Value(spec[2..], option)
  }

  /** An address and port around the last colon, the brackets of the address removed. */
  function Endpoint(text: string, n: nat): (string, string)
    requires n <= |text|
  {
    if n == 0 then (text, "")
    else if text[n - 1] == ':' then (Unbracketed(text[..n - 1]), text[n..])
    else Endpoint(text, n - 1)
  }

  function Unbracketed(text: string): string {
    if |text| >= 2 && text[0] == '[' && text[|text| - 1] == ']' then text[1..|text| - 1] else text
  }

  /** What a rule does to a packet that it matches. */
  function Target(spec: seq<string>): Verdict {
    match Value(spec, "-j")
    case None => Unknown
    case Some(j) =>
      if j == "ACCEPT" then Accepted
      else if j == "MASQUERADE" then Masqueraded
      else if j == "DNAT" then
        match Value(spec, "--to-destination")
        case None => Unknown
        case Some(text) => var (ip, port) := Endpoint(text, |text|); SentTo(ip, port)
      else Unknown
  }

  predicate Catches(r: Rule, table: string, chain: string, k: Packet) {
    r.table == table && r.chain == chain && Matches(r.spec, k)
  }

  /** The first rule of a chain that matches a packet decides; without one it passes. */
  function Decide(rules: seq<Rule>, table: string, chain: string, k: Packet): Verdict {
    if rules == [] then Passes
    else if Catches(rules[0], table, chain, k) then Target(rules[0].spec)
    else Decide(rules[1..], table, chain, k)
  }

  // ----- what the rules of a port say -----

  lemma {:induction false} EndpointAt(host: string, port: string, n: nat)
    requires ':' !in port && |host| < n <= |host + ":" + port|
    ensures Endpoint(host + ":" + port, n) == (Unbracketed(host), port)
    decreases n
  {
    var text := host + ":" + port;
    if n == |host| + 1 {
      assert text[..n - 1] == host && text[n..] == port;
    } else {
      assert text[n - 1] == port[n - 1 - |host| - 1];
      EndpointAt(host, port, n - 1);
    }
  }

  lemma JoinedEndpoint(ip: AddressText, port: PortText)
    ensures var text := JoinHostPort(ip, port); Endpoint(text, |text|) == (ip, port)
  {
    var text := JoinHostPort(ip, port);
    if ':' in ip {
      var host := "[" + ip + "]";
      assert text == host + ":" + port;
      assert host[1..|host| - 1] == ip;
      EndpointAt(host, port, |text|);
    } else {
      assert ip != [] ==> ip[0] in ip;
      EndpointAt(ip, port, |text|);
    }
  }

  lemma OptionsDiffer()
    ensures "-p" != "-d" && "-p" != "-s" && "-p" != "-j" && "-d" != "-s" && "-d" != "-j" && "-s" != "-j"
  {
    assert "-p"[1] == 'p' && "-d"[1] == 'd' && "-s"[1] == 's' && "-j"[1] == 'j';
  }

  lemma ReadPair(option: string, value: string, rest: seq<string>, k: Packet)
    ensures Matches([option, value] + rest, k) <==> Holds(option, value, k) && Matches(rest, k)
    ensures forall o :: Value([option, value] + rest, o) == if option == o then Some(value) else Value(rest, o)
  {
    assert ([option, value] + rest)[2..] == rest;
  }

  /** The packets that are to reach the port, that have reached it, and that go to or come from its machine. */
  predicate Frontend(p: Port, k: Packet) {
    k.protocol == p.protocol && k.dest == p.host && k.dport == p.port
  }

  predicate Backend(p: Port, k: Packet) {
    k.protocol == p.protocol && k.dest == p.internalIP && k.dport == p.internalPort
  }

  predicate Touches(p: Port, k: Packet) {
    k.dest == p.internalIP || k.source == p.internalIP
  }

  function DnatTo(p: Port): seq<string> {
    ["-j", "DNAT", "--to-destination", JoinHostPort(p.internalIP, p.internalPort)]
  }

  lemma ReadDnat(p: Port, k: Packet)
    ensures Matches(DnatTo(p), k) && Value(DnatTo(p), "-j") == Some("DNAT")
    ensures Target(DnatTo(p)) == SentTo(p.internalIP, p.internalPort)
  {
    var text := JoinHostPort(p.internalIP, p.internalPort);
    var rest: seq<string> := ["--to-destination", text];
    assert DnatTo(p) == ["-j", "DNAT"] + rest && rest == ["--to-destination", text] + [];
    ReadPair("-j", "DNAT", rest, k);
    ReadPair("--to-destination", text, [], k);
    JoinedEndpoint(p.internalIP, p.internalPort);
  }

  /** Options that select packets do not change the target. */
  lemma SelectThen(option: string, value: string, rest: seq<string>, k: Packet)
    requires option == "-p" || option == "-s" || option == "-d" || option == "--dport"
    ensures Matches([option, value] + rest, k) <==> Holds(option, value, k) && Matches(rest, k)
    ensures Target([option, value] + rest) == Target(rest)
  {
    OptionsDiffer();
    ReadPair(option, value, rest, k);
  }

  lemma ReadOutput(p: Port, k: Packet)
    ensures var spec := ["-p", p.protocol, "-d", p.host, "--dport", p.port] + DnatTo(p);
            (Matches(spec, k) <==> Frontend(p, k)) && Target(spec) == SentTo(p.internalIP, p.internalPort)
  {
    var to := DnatTo(p);
    assert ["-p", p.protocol, "-d", p.host, "--dport", p.port] + to ==
           ["-p", p.protocol] + (["-d", p.host] + (["--dport", p.port] + to));
    ReadDnat(p, k);
    OptionsDiffer();
    SelectThen("--dport", p.port, to, k);
    SelectThen("-d", p.host, ["--dport", p.port] + to, k);
    SelectThen("-p", p.protocol, ["-d", p.host] + (["--dport", p.port] + to), k);
  }

  lemma ReadPrerouting(p: Port, k: Packet)
    ensures var spec := ["-p", p.protocol, "--dport", p.port, "-d", p.host] + DnatTo(p);
            (Matches(spec, k) <==> Frontend(p, k)) && Target(spec) == SentTo(p.internalIP, p.internalPort)
  {
    var to := DnatTo(p);
    assert ["-p", p.protocol, "--dport", p.port, "-d", p.host] + to ==
           ["-p", p.protocol] + (["--dport", p.port] + (["-d", p.host] + to));
    ReadDnat(p, k);
    OptionsDiffer();
    SelectThen("-d", p.host, to, k);
    SelectThen("--dport", p.port, ["-d", p.host] + to, k);
    SelectThen("-p", p.protocol, ["--dport", p.port] + (["-d", p.host] + to), k);
  }

  lemma ReadTarget(j: string, k: Packet)
    requires j == "ACCEPT" || j == "MASQUERADE"
    ensures Matches(["-j", j], k) && Target(["-j", j]) == if j == "ACCEPT" then Accepted else Masqueraded
  {
    assert ["-j", j] == ["-j", j] + [];
    OptionsDiffer();
    ReadPair("-j", j, [], k);
  }

  lemma ReadPostrouting(p: Port, k: Packet)
    ensures var spec := ["-p", p.protocol, "-d", p.internalIP, "--dport", p.internalPort, "-j", "MASQUERADE"];
            (Matches(spec, k) <==> Backend(p, k)) && Target(spec) == Masqueraded
  {
    var to := ["-j", "MASQUERADE"];
    assert ["-p", p.protocol, "-d", p.internalIP, "--dport", p.internalPort, "-j", "MASQUERADE"] ==
           ["-p", p.protocol] + (["-d", p.internalIP] + (["--dport", p.internalPort] + to));
    ReadTarget("MASQUERADE", k);
    OptionsDiffer();
    SelectThen("--dport", p.internalPort, to, k);
    SelectThen("-d", p.internalIP, ["--dport", p.internalPort] + to, k);
    SelectThen("-p", p.protocol, ["-d", p.internalIP] + (["--dport", p.internalPort] + to), k);
  }

  lemma ReadForward(ip: string, k: Packet)
    ensures (Matches(["-d", ip, "-j", "ACCEPT"], k) <==> k.dest == ip) && Target(["-d", ip, "-j", "ACCEPT"]) == Accepted
    ensures (Matches(["-s", ip, "-j", "ACCEPT"], k) <==> k.source == ip) &&
            Target(["-s", ip, "-j", "ACCEPT"]) == Accepted
  {
    var to := ["-j", "ACCEPT"];
    assert ["-d", ip, "-j", "ACCEPT"] == ["-d", ip] + to && ["-s", ip, "-j", "ACCEPT"] == ["-s", ip] + to;
    ReadTarget("ACCEPT", k);
    OptionsDiffer();
    SelectThen("-d", ip, to, k);
    SelectThen("-s", ip, to, k);
  }

  /** The packets that a port catches in a chain, and what it does to them. */
  predicate Caught(p: Port, table: string, chain: string, k: Packet) {
    if table == "nat" then
      if chain == "OUTPUT" || chain == "PREROUTING" then Frontend(p, k) else chain == "POSTROUTING" && Backend(p, k)
    else
      table == "filter" && chain == "FORWARD" && !p.loopback && Touches(p, k)
  }

  function Effect(p: Port, table: string, chain: string): Verdict {
    if table == "filter" then Accepted
    else if chain == "POSTROUTING" then Masqueraded
    else SentTo(p.internalIP, p.internalPort)
  }

  lemma RuleDoes(p: Port, m: nat, table: string, chain: string, k: Packet)
    requires m < |RulesOf(p)| && Catches(RulesOf(p)[m], table, chain, k)
    ensures Caught(p, table, chain, k) && Target(RulesOf(p)[m].spec) == Effect(p, table, chain)
  {
    ReadOutput(p, k);
    ReadPrerouting(p, k);
    ReadPostrouting(p, k);
    ReadForward(p.internalIP, k);
  }

  /** A port set up completely has a rule for every packet it is to catch. */
  lemma PortDoes(p: Port, table: string, chain: string, k: Packet) returns (m: nat)
    requires Caught(p, table, chain, k)
    ensures m < |RulesOf(p)| && Catches(RulesOf(p)[m], table, chain, k)
  {
    ReadOutput(p, k);
    ReadPrerouting(p, k);
    ReadPostrouting(p, k);
    ReadForward(p.internalIP, k);
    var n := |RulesOf(p)|;
    m := if table == "filter" then (if k.dest == p.internalIP then 0 else 1)
         else if chain == "OUTPUT" then n - 3 else if chain == "PREROUTING" then n - 2 else n - 1;
  }

  // ----- which rules are there -----

  /** How many copies of rule `r` one callback has appended, and all of them. */
  function Appended(rs: seq<Rule>, w: Worker, r: Rule): nat {
    if w.appended <= |rs| then Times(rs[..w.appended], r) else 0
  }

  function Added(plan: seq<seq<Rule>>, ws: seq<Worker>, r: Rule): nat
    requires |ws| == |plan|
    decreases |ws|
  {
    if ws == [] then 0
    else
      var k := |ws| - 1;
      Added(plan[..k], ws[..k], r) + Appended(plan[k], ws[k], r)
  }

  lemma {:induction false} AddedUpdate(plan: seq<seq<Rule>>, ws: seq<Worker>, i: nat, w: Worker, r: Rule)
    requires |ws| == |plan| && i < |ws|
    ensures Added(plan, ws[i := w], r) + Appended(plan[i], ws[i], r) == Added(plan, ws, r) + Appended(plan[i], w, r)
    decreases |ws|
  {
    var k := |ws| - 1;
    if i < k {
      AddedUpdate(plan[..k], ws[..k], i, w, r);
      assert ws[i := w][..k] == ws[..k][i := w];
    } else {
      assert ws[i := w][..k] == ws[..k];
    }
  }

  lemma {:induction false} NothingAdded(plan: seq<seq<Rule>>, ws: seq<Worker>, r: Rule)
    requires |ws| == |plan| && forall i | 0 <= i < |ws| :: ws[i].appended == 0
    ensures Added(plan, ws, r) == 0
    decreases |ws|
  {
    if ws != [] {
      NothingAdded(plan[..|ws| - 1], ws[..|ws| - 1], r);
    }
  }

  ghost predicate Installed(plan: seq<seq<Rule>>, s: State, initial: multiset<Rule>, r: Rule) {
    |s.workers| == |plan| && s.rules[r] == initial[r] + Added(plan, s.workers, r)
  }

  lemma NextInstalls(plan: seq<seq<Rule>>, s: State, a: Act, initial: multiset<Rule>, r: Rule)
    requires Possible(plan, s, a) && WorkerKept(plan[a.i], a.i, s.workers[a.i]) && Installed(plan, s, initial, r)
    ensures Installed(plan, Next(plan, s, a), initial, r)
  {
    var rs, w := plan[a.i], s.workers[a.i];
    AddedUpdate(plan, s.workers, a.i, Worked(rs, w, a), r);
    if a.Append? {
      AppendOwed(rs, w.appended, r);
    }
  }

  /** At every moment of the set-up the rules are the initial ones and those appended: recording, failing, collecting
      and the hooks change none. */
  lemma {:induction false} RunInstalls(plan: seq<seq<Rule>>, ss: seq<State>, acts: seq<Act>, n: nat, r: Rule)
    requires Run(plan, ss, acts) && n < |ss|
    ensures Installed(plan, ss[n], ss[0].rules, r)
  {
    if n == 0 {
      NothingAdded(plan, ss[0].workers, r);
    } else {
      var s, a := ss[n - 1], acts[n - 1];
      RunInstalls(plan, ss, acts, n - 1, r);
      RunKeeps(plan, ss, acts, n - 1);
      assert ss[n - 1 + 1] == Next(plan, s, a) && WorkerKept(plan[a.i], a.i, s.workers[a.i]);
      NextInstalls(plan, s, a, ss[0].rules, r);
    }
  }

  lemma {:induction false} TimesHas(rs: seq<Rule>, n: nat, r: Rule)
    requires n <= |rs|
    ensures Times(rs[..n], r) > 0 <==> exists m: nat :: m < n && rs[m] == r
  {
    if n > 0 {
      TimesHas(rs, n - 1, r);
      AppendOwed(rs, n - 1, r);
    }
  }

  lemma {:induction false} AddedHas(plan: seq<seq<Rule>>, ws: seq<Worker>, r: Rule)
    requires |ws| == |plan|
    ensures Added(plan, ws, r) > 0 <==>
            exists i: nat, m: nat :: i < |ws| && m < ws[i].appended <= |plan[i]| && plan[i][m] == r
    decreases |ws|
  {
    if ws != [] {
      var k := |ws| - 1;
      AddedHas(plan[..k], ws[..k], r);
      if ws[k].appended <= |plan[k]| {
        TimesHas(plan[k], ws[k].appended, r);
      }
    }
  }

  // ----- what they do -----

  /** No rule of others catches the packet in this chain. */
  ghost predicate Untouched(initial: multiset<Rule>, table: string, chain: string, k: Packet) {
    forall r | r in initial :: !Catches(r, table, chain, k)
  }

  lemma {:induction false} SomeRuleDecides(rules: seq<Rule>, table: string, chain: string, k: Packet)
    ensures if exists r :: r in rules && Catches(r, table, chain, k)
            then exists r ::
              r in rules && Catches(r, table, chain, k) && Decide(rules, table, chain, k) == Target(r.spec)
            else Decide(rules, table, chain, k) == Passes
    decreases |rules|
  {
    if rules != [] && !Catches(rules[0], table, chain, k) {
      SomeRuleDecides(rules[1..], table, chain, k);
    }
  }

  /** In whatever order the rules of a moment of the set-up stand. */
  ghost predicate Listing(ports: seq<Port>, ss: seq<State>, acts: seq<Act>, n: nat, rules: seq<Rule>) {
    Run(Plan(ports), ss, acts) && n < |ss| && multiset(rules) == ss[n].rules && |ss[n].workers| == |ports|
  }

  /** A rule of the listing that is not an initial one was appended for a port, and every rule that was is there. */
  lemma ListingHas(ports: seq<Port>, ss: seq<State>, acts: seq<Act>, n: nat, rules: seq<Rule>, r: Rule)
    requires Listing(ports, ss, acts, n, rules)
    ensures r in rules <==>
            || r in ss[0].rules
            || exists i: nat, m: nat :: i < |ports| && m < ss[n].workers[i].appended <= |RulesOf(ports[i])|
                                        && RulesOf(ports[i])[m] == r
  {
    var plan, ws := Plan(ports), ss[n].workers;
    RunInstalls(plan, ss, acts, n, r);
    AddedHas(plan, ws, r);
    assert r in rules <==> r in multiset(rules);
    assert forall i: nat | i < |ports| :: plan[i] == RulesOf(ports[i]);
  }

  lemma AnnouncedIsComplete(ports: seq<Port>, ss: seq<State>, acts: seq<Act>, n: nat, i: nat)
    requires Run(Plan(ports), ss, acts) && n < |ss| && |ss[n].workers| == |ports| && i < |ports|
    requires ss[n].workers[i].announced
    ensures ss[n].workers[i].appended == |RulesOf(ports[i])|
  {
    RunKeeps(Plan(ports), ss, acts, n);
    assert WorkerKept(Plan(ports)[i], i, ss[n].workers[i]);
  }

  /** A packet passes a chain, or one of the ports that are to catch it does to it what it should. */
  lemma PortsDecide(ports: seq<Port>, ss: seq<State>, acts: seq<Act>, n: nat, rules: seq<Rule>, table: string,
                    chain: string, k: Packet)
    requires Listing(ports, ss, acts, n, rules) && Untouched(ss[0].rules, table, chain, k)
    ensures var v := Decide(rules, table, chain, k);
            v == Passes || exists j: nat ::
              j < |ports| && Caught(ports[j], table, chain, k) && v == Effect(ports[j], table, chain)
  {
    var v := Decide(rules, table, chain, k);
    SomeRuleDecides(rules, table, chain, k);
    if v != Passes {
      var r :| r in rules && Catches(r, table, chain, k) && v == Target(r.spec);
      ListingHas(ports, ss, acts, n, rules, r);
      var j: nat, m: nat :| j < |ports| && m < ss[n].workers[j].appended <= |RulesOf(ports[j])|
                            && RulesOf(ports[j])[m] == r;
      RuleDoes(ports[j], m, table, chain, k);
    }
  }

  /** It does not pass if one of these ports has been announced. */
  lemma AnnouncedDecides(ports: seq<Port>, ss: seq<State>, acts: seq<Act>, n: nat, rules: seq<Rule>, table: string,
                         chain: string, k: Packet, i: nat)
    requires Listing(ports, ss, acts, n, rules)
    requires i < |ports| && ss[n].workers[i].announced && Caught(ports[i], table, chain, k)
    ensures Decide(rules, table, chain, k) != Passes
  {
    var m := PortDoes(ports[i], table, chain, k);
    AnnouncedIsComplete(ports, ss, acts, n, i);
    ListingHas(ports, ss, acts, n, rules, RulesOf(ports[i])[m]);
    SomeRuleDecides(rules, table, chain, k);
  }

  /** A packet to a frontend is sent to the machine's address and port of a port with that frontend; if there is only
      one, to its own. Other packets pass. */
  lemma FrontendIsSentOn(ports: seq<Port>, ss: seq<State>, acts: seq<Act>, n: nat, rules: seq<Rule>, chain: string,
                         k: Packet)
    requires Listing(ports, ss, acts, n, rules) && (chain == "OUTPUT" || chain == "PREROUTING")
    requires Untouched(ss[0].rules, "nat", chain, k)
    ensures var v := Decide(rules, "nat", chain, k);
            && (v == Passes || exists j: nat ::
                  j < |ports| && Frontend(ports[j], k) && v == SentTo(ports[j].internalIP, ports[j].internalPort))
            && forall i: nat | i < |ports| && ss[n].workers[i].announced && Frontend(ports[i], k) ::
                 && v != Passes
                 && ((forall j: nat | j < |ports| && Frontend(ports[j], k) :: j == i) ==>
                       v == SentTo(ports[i].internalIP, ports[i].internalPort))
  {
    PortsDecide(ports, ss, acts, n, rules, "nat", chain, k);
    forall i: nat | i < |ports| && ss[n].workers[i].announced && Caught(ports[i], "nat", chain, k)
      ensures Decide(rules, "nat", chain, k) != Passes
    {
      AnnouncedDecides(ports, ss, acts, n, rules, "nat", chain, k, i);
    }
    assert forall p: Port :: Caught(p, "nat", chain, k) <==> Frontend(p, k);
    assert forall p: Port :: Effect(p, "nat", chain) == SentTo(p.internalIP, p.internalPort);
  }

  /** A packet that was sent to a machine's address and port is masqueraded; other packets are not. */
  lemma BackendIsMasqueraded(ports: seq<Port>, ss: seq<State>, acts: seq<Act>, n: nat, rules: seq<Rule>, k: Packet)
    requires Listing(ports, ss, acts, n, rules) && Untouched(ss[0].rules, "nat", "POSTROUTING", k)
    ensures var v := Decide(rules, "nat", "POSTROUTING", k);
            && (v == Passes || (v == Masqueraded && exists j: nat :: j < |ports| && Backend(ports[j], k)))
            && ((exists i: nat :: i < |ports| && ss[n].workers[i].announced && Backend(ports[i], k)) ==>
              v == Masqueraded)
  {
    PortsDecide(ports, ss, acts, n, rules, "nat", "POSTROUTING", k);
    forall i: nat | i < |ports| && ss[n].workers[i].announced && Caught(ports[i], "nat", "POSTROUTING", k)
      ensures Decide(rules, "nat", "POSTROUTING", k) != Passes
    {
      AnnouncedDecides(ports, ss, acts, n, rules, "nat", "POSTROUTING", k, i);
    }
    assert forall p: Port :: Caught(p, "nat", "POSTROUTING", k) <==> Backend(p, k);
    assert forall p: Port :: Effect(p, "nat", "POSTROUTING") == Masqueraded;
  }

  /** Packets to and from a machine are accepted exactly for ports that are not on a loopback address. */
  lemma ForwardIsAccepted(ports: seq<Port>, ss: seq<State>, acts: seq<Act>, n: nat, rules: seq<Rule>, k: Packet)
    requires Listing(ports, ss, acts, n, rules) && Untouched(ss[0].rules, "filter", "FORWARD", k)
    ensures var v := Decide(rules, "filter", "FORWARD", k);
            && (v == Passes || (v == Accepted && exists j: nat ::
                  j < |ports| && !ports[j].loopback && Touches(ports[j], k)))
            && forall i: nat | i < |ports| && ss[n].workers[i].announced && Touches(ports[i], k) ::
                 && (!ports[i].loopback ==> v == Accepted)
                 && ((forall j: nat | j < |ports| && Touches(ports[j], k) :: j == i) ==>
                       (v == Accepted <==> !ports[i].loopback))
  {
    PortsDecide(ports, ss, acts, n, rules, "filter", "FORWARD", k);
    forall i: nat | i < |ports| && ss[n].workers[i].announced && Caught(ports[i], "filter", "FORWARD", k)
      ensures Decide(rules, "filter", "FORWARD", k) != Passes
    {
      AnnouncedDecides(ports, ss, acts, n, rules, "filter", "FORWARD", k, i);
    }
    assert forall p: Port :: Caught(p, "filter", "FORWARD", k) <==> !p.loopback && Touches(p, k);
    assert forall p: Port :: Effect(p, "filter", "FORWARD") == Accepted;
  }

  /** The packet after it was sent on. */
  function Rewritten(k: Packet, p: Port): Packet {
    k.(dest := p.internalIP, dport := p.internalPort)
  }

  /** The whole way of a packet to the frontend of an announced port, through rules that nobody else interferes with:
      sent to the port's machine, let through to it when the frontend is not on a loopback address, and masqueraded; and
      the machine's answer is let through as well. */
  lemma PortIsForwarded(ports: seq<Port>, ss: seq<State>, acts: seq<Act>, n: nat, rules: seq<Rule>, i: nat, k: Packet,
                        answer: Packet)
    requires Listing(ports, ss, acts, n, rules) && i < |ports| && ss[n].workers[i].announced
    requires Frontend(ports[i], k) && forall j: nat | j < |ports| && Frontend(ports[j], k) :: j == i
    requires answer.source == ports[i].internalIP
    requires var sent := Rewritten(k, ports[i]);
             && Untouched(ss[0].rules, "nat", "OUTPUT", k) && Untouched(ss[0].rules, "nat", "PREROUTING", k)
             && Untouched(ss[0].rules, "nat", "POSTROUTING", sent) && Untouched(ss[0].rules, "filter", "FORWARD", sent)
             && Untouched(ss[0].rules, "filter", "FORWARD", answer)
    ensures var sent := Rewritten(k, ports[i]);
            && Decide(rules, "nat", "OUTPUT", k) == SentTo(sent.dest, sent.dport)
            && Decide(rules, "nat", "PREROUTING", k) == SentTo(sent.dest, sent.dport)
            && Decide(rules, "nat", "POSTROUTING", sent) == Masqueraded
            && (!ports[i].loopback ==>
                  && Decide(rules, "filter", "FORWARD", sent) == Accepted
                  && Decide(rules, "filter", "FORWARD", answer) == Accepted)
  {
    var sent := Rewritten(k, ports[i]);
    FrontendIsSentOn(ports, ss, acts, n, rules, "OUTPUT", k);
    FrontendIsSentOn(ports, ss, acts, n, rules, "PREROUTING", k);
    assert Backend(ports[i], sent) && Touches(ports[i], sent) && Touches(ports[i], answer);
    BackendIsMasqueraded(ports, ss, acts, n, rules, sent);
    ForwardIsAccepted(ports, ss, acts, n, rules, sent);
    ForwardIsAccepted(ports, ss, acts, n, rules, answer);
  }
}
