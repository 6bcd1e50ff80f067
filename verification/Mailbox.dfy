/** The agent's remote as a one-slot mailbox (agent_rpc.go:93-117, 146-170, 204-282): connections are handled one at
    a time and publish their remote in the slot, one consumer at a time takes it out and puts it back. */
module Mailbox {

  datatype Option<T> = None | Some(value: T)

  /** Where the handler of connections is. Connection `k` is the k-th accepted one, and so is its remote. */
  datatype Phase = Listening | Accepted(k: nat) | Linking(k: nat) | Publishing(k: nat) | Live(k: nat)

  /** A remote in the consumer's hand; `seen` is the last publication at the time it was taken. */
  datatype Held = Held(r: nat, seen: nat)

  datatype Mail = Mail(slot: Option<nat>, phase: Phase, accepted: nat, latest: nat, hand: Option<Held>)

  datatype Move =
    // the handler
    | Accept | ClearFirst | LinkFails | Found | Publish | Retire
    // the consumer
    | Take | PutBack | Miss

  predicate Possible(m: Mail, v: Move) {
    match v
    case Accept => m.phase.Listening?
    case ClearFirst => m.phase.Accepted?
    case LinkFails => m.phase.Linking?
    case Found => m.phase.Linking?
    case Publish => m.phase.Publishing? && m.slot.None?
    case Retire => m.phase.Live?
    case Take => m.hand.None? && m.slot.Some?
    case PutBack => m.hand.Some? && m.slot.None?
    case Miss => m.hand.Some? && m.slot.Some?
  }

  function Next(m: Mail, v: Move): Mail
    requires Possible(m, v)
  {
    match v
    case Accept => m.(phase := Accepted(m.accepted + 1), accepted := m.accepted + 1)
    case ClearFirst => m.(phase := Linking(m.phase.k), slot := None)
    case LinkFails => m.(phase := Listening)
    case Found => m.(phase := Publishing(m.phase.k))
    case Publish => m.(phase := Live(m.phase.k), slot := Some(m.phase.k), latest := m.phase.k)
    case Retire => m.(phase := Listening, slot := None)
    case Take => m.(slot := None, hand := Some(Held(m.slot.value, m.latest)))
    case PutBack => m.(slot := Some(m.hand.value.r), hand := None)
    case Miss => m.(hand := None)
  }

  const EMPTY: Mail := Mail(None, Listening, 0, 0, None)

  predicate Run(ms: seq<Mail>, vs: seq<Move>) {
    && |ms| == |vs| + 1
    && ms[0] == EMPTY
    && forall i | 0 <= i < |vs| :: Possible(ms[i], vs[i]) && ms[i + 1] == Next(ms[i], vs[i])
  }

  predicate Inv(m: Mail) {
    && m.latest <= m.accepted
    && (m.slot.Some? ==> m.slot.value <= m.latest)
    && (m.hand.Some? ==> m.hand.value.r <= m.hand.value.seen <= m.latest)
    && (m.phase.Accepted? || m.phase.Linking? || m.phase.Publishing? ==> m.latest < m.phase.k == m.accepted)
    && (m.phase.Live? ==>
          && m.phase.k == m.latest
          && (m.slot == Some(m.latest) || (m.slot.None? && m.hand.Some? && m.hand.value.r == m.latest)))
  }

  lemma NextKeepsInv(m: Mail, v: Move)
    requires Inv(m) && Possible(m, v)
    ensures Inv(Next(m, v))
  {
  }

  lemma {:induction false} RunKeepsInv(ms: seq<Mail>, vs: seq<Move>, i: nat)
    requires Run(ms, vs) && i < |ms|
    ensures Inv(ms[i])
  {
    if i > 0 {
      RunKeepsInv(ms, vs, i - 1);
      NextKeepsInv(ms[i - 1], vs[i - 1]);
      assert ms[i - 1 + 1] == ms[i];
    }
  }

  /** While connection `k` is published its remote is in the slot or in the consumer's hand, and whatever a call of
      GetRemote takes or returns then is that remote. */
  lemma PublishedIsReachable(ms: seq<Mail>, vs: seq<Move>, i: nat)
    requires Run(ms, vs) && i < |ms| && ms[i].phase.Live?
    ensures var k := ms[i].phase.k;
            && k == ms[i].latest
            && (ms[i].slot == Some(k) || (ms[i].slot.None? && ms[i].hand.Some? && ms[i].hand.value.r == k))
            && (i < |vs| && vs[i] == PutBack ==> ms[i].hand.value.r == k)
            && (i < |vs| && vs[i] == Take ==> ms[i].slot.value == k)
  {
    RunKeepsInv(ms, vs, i);
  }

  // ----- freshness after a connection has ended -----

  /** The call that returns at step `i` gives its caller the last published remote. */
  predicate FreshReturn(ms: seq<Mail>, vs: seq<Move>, i: nat)
    requires Run(ms, vs) && i < |vs|
  {
    vs[i] == PutBack ==> ms[i].hand.value.r == ms[i].latest
  }

  /** The moves alone: step `t` is the last Take before `i`. */
  predicate LastTake(vs: seq<Move>, t: nat, i: nat)
    requires i <= |vs|
  {
    t < i && vs[t] == Take && forall u | t < u < i :: vs[u] != Take
  }

  /** A Publish came after the last Take before `i`. */
  ghost predicate Overtaken(vs: seq<Move>, i: nat)
    requires i <= |vs|
  {
    exists t: nat, p: nat :: LastTake(vs, t, i) && t < p < i && vs[p] == Publish
  }

  /** No Publish between a Take and its PutBack, up to step `n`. */
  ghost predicate Quiet(vs: seq<Move>, n: nat)
    requires n <= |vs|
  {
    forall i: nat | i < n && vs[i] == PutBack :: !Overtaken(vs, i)
  }

  /** It can go wrong once the newer connection is gone: a remote taken before connection 2 was published is put
      back, and returned, after connection 2 has cleared the slot. */
  lemma OlderRemoteReturned() returns (ms: seq<Mail>, vs: seq<Move>)
    ensures Run(ms, vs) && |vs| > 0 && vs[|vs| - 1] == PutBack
    ensures ms[|vs| - 1].latest == 2 && ms[|vs| - 1].hand == Some(Held(1, 1)) && !FreshReturn(ms, vs, |vs| - 1)
  {
    vs := [Accept, ClearFirst, Found, Publish, Take, Retire, Accept, ClearFirst, Found, Publish, Retire, PutBack];
    var m4 := Mail(Some(1), Live(1), 1, 1, None);
    var hand := Some(Held(1, 1));
    ms := [EMPTY, Mail(None, Accepted(1), 1, 0, None), Mail(None, Linking(1), 1, 0, None),
           Mail(None, Publishing(1), 1, 0, None), m4, Mail(None, Live(1), 1, 1, hand),
           Mail(None, Listening, 1, 1, hand), Mail(None, Accepted(2), 2, 1, hand), Mail(None, Linking(2), 2, 1, hand),
           Mail(None, Publishing(2), 2, 1, hand), Mail(Some(2), Live(2), 2, 2, hand),
           Mail(None, Listening, 2, 2, hand), Mail(Some(1), Listening, 2, 2, None)];
  }

  /** What the consumer holds was the last publication when it was taken and, unless overtaken, still is. */
  lemma {:induction false} HeldSinceTake(ms: seq<Mail>, vs: seq<Move>, i: nat)
    requires Run(ms, vs) && i < |ms| && ms[i].hand.Some?
    ensures exists t: nat :: LastTake(vs, t, i)
    ensures ms[i].hand.value.seen == ms[i].latest <==> !Overtaken(vs, i)
  {
    RunKeepsInv(ms, vs, i);
    RunKeepsInv(ms, vs, i - 1);
    var j := i - 1;
    assert ms[j + 1] == Next(ms[j], vs[j]);
    if vs[j] == Take {
      assert LastTake(vs, j, i);
    } else {
      HeldSinceTake(ms, vs, j);
      var t: nat :| LastTake(vs, t, j);
      assert LastTake(vs, t, i);
      LaterMove(vs, j);
    }
  }

  lemma LaterMove(vs: seq<Move>, j: nat)
    requires j < |vs| && vs[j] != Take && exists t: nat :: LastTake(vs, t, j)
    ensures Overtaken(vs, j + 1) <==> Overtaken(vs, j) || vs[j] == Publish
  {
    forall t ensures LastTake(vs, t, j + 1) <==> LastTake(vs, t, j) {
    }
    if Overtaken(vs, j) {
      var t: nat, p: nat :| LastTake(vs, t, j) && t < p < j && vs[p] == Publish;
      assert LastTake(vs, t, j + 1);
    } else if vs[j] == Publish {
      var t: nat :| LastTake(vs, t, j);
      assert LastTake(vs, t, j + 1) && t < j;
    }
  }

  predicate Current(m: Mail) {
    (m.slot.Some? ==> m.slot.value == m.latest) && (m.hand.Some? ==> m.hand.value.r == m.hand.value.seen)
  }

  lemma {:induction false} QuietStaysCurrent(ms: seq<Mail>, vs: seq<Move>, n: nat)
    requires Run(ms, vs) && n <= |vs| && Quiet(vs, n)
    ensures Current(ms[n])
  {
    if n > 0 {
      QuietStaysCurrent(ms, vs, n - 1);
      if vs[n - 1] == PutBack {
        HeldSinceTake(ms, vs, n - 1);
      }
      assert ms[n - 1 + 1] == ms[n];
    }
  }

  /** Exactly when every call of a run returns the last published remote: when no connection is published between a Take
      and its PutBack. */
  lemma FreshExactlyWhenQuiet(ms: seq<Mail>, vs: seq<Move>)
    requires Run(ms, vs)
    ensures (forall i: nat | i < |vs| :: FreshReturn(ms, vs, i)) <==> Quiet(vs, |vs|)
  {
    if Quiet(vs, |vs|) {
      forall i: nat | i < |vs| ensures FreshReturn(ms, vs, i) {
        if vs[i] == PutBack {
          QuietStaysCurrent(ms, vs, i);
          HeldSinceTake(ms, vs, i);
        }
      }
    } else {
      var i: nat :| i < |vs| && vs[i] == PutBack && Overtaken(vs, i);
      RunKeepsInv(ms, vs, i);
      HeldSinceTake(ms, vs, i);
      assert !FreshReturn(ms, vs, i);
    }
  }

  // ----- what is in the slot, and since when -----

  /** The move of step `p` puts a remote in the slot, and no move from there to `i` takes it out. */
  predicate Filled(vs: seq<Move>, p: nat, i: nat)
    requires i <= |vs|
  {
    && p < i && (vs[p] == Publish || vs[p] == PutBack)
    && forall l | p < l < i :: vs[l] != Take && vs[l] != Retire && vs[l] != ClearFirst
  }

  lemma {:induction false} FullSinceFilled(ms: seq<Mail>, vs: seq<Move>, i: nat)
    requires Run(ms, vs) && i < |ms|
    ensures ms[i].slot.Some? <==> exists p: nat :: Filled(vs, p, i)
    ensures forall p: nat | Filled(vs, p, i) :: ms[i].slot == ms[p + 1].slot
  {
    if i > 0 {
      var j := i - 1;
      FullSinceFilled(ms, vs, j);
      assert ms[j + 1] == Next(ms[j], vs[j]) && Possible(ms[j], vs[j]);
      if vs[j] == Publish || vs[j] == PutBack {
        assert Filled(vs, j, i);
        assert forall p: nat | Filled(vs, p, i) && p != j :: Filled(vs, p, j);
      } else if vs[j] != Take && vs[j] != Retire && vs[j] != ClearFirst {
        assert forall p: nat :: Filled(vs, p, i) <==> Filled(vs, p, j);
      }
    }
  }

  /** Step `u` is the last Retire before `i`. */
  predicate LastRetire(vs: seq<Move>, u: nat, i: nat)
    requires i <= |vs|
  {
    u < i && vs[u] == Retire && forall l | u < l < i :: vs[l] != Retire
  }

  lemma {:induction false} LiveUntilRetire(ms: seq<Mail>, vs: seq<Move>, i: nat, j: nat) returns (u: nat)
    requires Run(ms, vs) && i <= j < |ms| && ms[i].phase.Live? && !ms[j].phase.Live?
    ensures i <= u && LastRetire(vs, u, j)
    decreases j
  {
    assert ms[j - 1 + 1] == Next(ms[j - 1], vs[j - 1]) && Possible(ms[j - 1], vs[j - 1]);
    if vs[j - 1] == Retire {
      u := j - 1;
    } else {
      u := LiveUntilRetire(ms, vs, i, j - 1);
    }
  }

  /** The remote put back at `p`, after the last connection ended at `u`, was taken at `t`, before it ended. */
  predicate HeldOver(vs: seq<Move>, t: nat, u: nat, p: nat, i: nat)
    requires i <= |vs|
  {
    && t < u < p < i && LastRetire(vs, u, i)
    && vs[p] == PutBack && LastTake(vs, t, p)
  }

  /** While no connection is published the slot is empty, unless a remote was in a consumer's hand when the last one
      ended and was put back since. */
  lemma {:induction false} FullWithoutConnection(ms: seq<Mail>, vs: seq<Move>, i: nat) returns (t: nat, u: nat, p: nat)
    requires Run(ms, vs) && i < |ms| && ms[i].slot.Some? && !ms[i].phase.Live?
    ensures HeldOver(vs, t, u, p, i)
  {
    var j := i - 1;
    assert ms[j + 1] == Next(ms[j], vs[j]) && Possible(ms[j], vs[j]);
    if vs[j] != PutBack {
      t, u, p := FullWithoutConnection(ms, vs, j);
    } else {
      HandSinceTake(ms, vs, j);
      var taken: nat :| LastTake(vs, taken, j);
      assert Possible(ms[taken], Take);
      if ms[taken].phase.Live? {
        t, p := taken, j;
        u := LiveUntilRetire(ms, vs, taken, j);
      } else {
        t, u, p := FullWithoutConnection(ms, vs, taken);
        if l :| taken <= l < j && vs[l] == Retire {
          t, p := taken, j;
          u := LastRetireFrom(vs, l, j);
        }
      }
    }
  }

  lemma {:induction false} LastRetireFrom(vs: seq<Move>, l: nat, i: nat) returns (u: nat)
    requires l < i <= |vs| && vs[l] == Retire
    ensures l <= u && LastRetire(vs, u, i)
    decreases i
  {
    u := i - 1;
    if vs[i - 1] != Retire {
      u := LastRetireFrom(vs, l, i - 1);
    }
  }

  /** A consumer holds a remote exactly when its last move was a Take, and it is what that Take found. */
  lemma {:induction false} HandSinceTake(ms: seq<Mail>, vs: seq<Move>, i: nat)
    requires Run(ms, vs) && i < |ms|
    ensures ms[i].hand.Some? <==>
            exists t: nat :: LastTake(vs, t, i) && forall l | t < l < i :: vs[l] != PutBack && vs[l] != Miss
    ensures forall t: nat | ms[i].hand.Some? && LastTake(vs, t, i) :: ms[t].slot == Some(ms[i].hand.value.r)
  {
    if i > 0 {
      var j := i - 1;
      HandSinceTake(ms, vs, j);
      assert ms[j + 1] == Next(ms[j], vs[j]) && Possible(ms[j], vs[j]);
      if vs[j] == Take {
        assert LastTake(vs, j, i);
      } else {
        assert forall t: nat :: LastTake(vs, t, i) <==> LastTake(vs, t, j);
      }
    }
  }

  /** Once a connection has ended with no remote in a consumer's hand, the slot is empty until the next Publish: nothing
      can be taken or put back, whatever else moves. */
  lemma EndedMeansEmpty(ms: seq<Mail>, vs: seq<Move>, u: nat, i: nat)
    requires Run(ms, vs) && u < i < |ms| && vs[u] == Retire && ms[u].hand.None?
    requires forall l | u < l < i :: vs[l] != Publish
    ensures ms[i].slot.None? && ms[i].hand.None?
  {
    var empty := (m: Mail) => m.slot.None? && m.hand.None?;
    var k := u + 1;
    assert ms[u + 1] == Next(ms[u], vs[u]);
    while k < i
      invariant u < k <= i && empty(ms[k])
    {
      assert ms[k + 1] == Next(ms[k], vs[k]) && Possible(ms[k], vs[k]);
      k := k + 1;
    }
  }

  /** A full slot is never overwritten: a remote is published or put back only when none is there, one is taken only
      when one is, and a call gives its remote up only when one was published since it took it. */
  lemma OnlyEmptyIsFilled(ms: seq<Mail>, vs: seq<Move>, i: nat)
    requires Run(ms, vs) && i < |vs|
    ensures vs[i] == Publish || vs[i] == PutBack ==> forall p: nat :: !Filled(vs, p, i)
    ensures vs[i] == Take ==> exists p: nat :: Filled(vs, p, i)
    ensures vs[i] == Miss ==> Overtaken(vs, i)
  {
    assert Possible(ms[i], vs[i]);
    FullSinceFilled(ms, vs, i);
    if vs[i] == Miss {
      HandSinceTake(ms, vs, i);
      var p: nat :| Filled(vs, p, i);
      var t: nat :| LastTake(vs, t, i) && forall l | t < l < i :: vs[l] != PutBack && vs[l] != Miss;
      assert t < p && vs[p] == Publish;
    }
  }

  // ----- what is published -----

  /** How many connections were accepted before `i`. */
  function Accepts(vs: seq<Move>, i: nat): nat
    requires i <= |vs|
  {
    if i == 0 then 0 else Accepts(vs, i - 1) + if vs[i - 1] == Accept then 1 else 0
  }

  predicate HandlerMove(v: Move) {
    !v.Take? && !v.PutBack? && !v.Miss?
  }

  /** Step `l` is the handler's last move before `i`. */
  predicate LastMove(vs: seq<Move>, l: nat, i: nat)
    requires i <= |vs|
  {
    l < i && HandlerMove(vs[l]) && forall k | l < k < i :: !HandlerMove(vs[k])
  }

  /** The move that leads the handler to each place. */
  predicate LeadsTo(v: Move, p: Phase) {
    match p
    case Listening => v == LinkFails || v == Retire
    case Accepted(_) => v == Accept
    case Linking(_) => v == ClearFirst
    case Publishing(_) => v == Found
    case Live(_) => v == Publish
  }

  lemma {:induction false} HandlerCameHere(ms: seq<Mail>, vs: seq<Move>, i: nat) returns (l: nat)
    requires Run(ms, vs) && i < |ms|
    ensures ms[i].accepted == Accepts(vs, i)
    ensures !ms[i].phase.Listening? ==> LastMove(vs, l, i) && LeadsTo(vs[l], ms[i].phase)
  {
    l := 0;
    if i > 0 {
      l := HandlerCameHere(ms, vs, i - 1);
      assert ms[i - 1 + 1] == Next(ms[i - 1], vs[i - 1]) && Possible(ms[i - 1], vs[i - 1]);
      if HandlerMove(vs[i - 1]) {
        l := i - 1;
      }
    }
  }

  /** Only the connection accepted last is published, after the handler has cleared the slot for it and found its
      remote, and it is its remote that appears in the slot. */
  lemma PublishesLastAccepted(ms: seq<Mail>, vs: seq<Move>, i: nat) returns (a: nat, c: nat, f: nat)
    requires Run(ms, vs) && i < |vs| && vs[i] == Publish
    ensures a < c < f < i && vs[a] == Accept && vs[c] == ClearFirst && vs[f] == Found
    ensures LastMove(vs, f, i) && LastMove(vs, c, f) && LastMove(vs, a, c)
    ensures ms[i + 1].slot == Some(Accepts(vs, i)) && ms[i + 1].latest == Accepts(vs, i)
  {
    RunKeepsInv(ms, vs, i);
    f := HandlerCameHere(ms, vs, i);
    assert Possible(ms[f], vs[f]);
    c := HandlerCameHere(ms, vs, f);
    assert Possible(ms[c], vs[c]);
    a := HandlerCameHere(ms, vs, c);
  }

  // ----- the object -----

  predicate Handlers(vs: seq<Move>) {
    forall v | v in vs :: HandlerMove(v)
  }

  /** Where the moves lead from `m`, if each is possible in turn. */
  function Played(m: Mail, vs: seq<Move>): Option<Mail>
    decreases |vs|
  {
    if vs == [] then Some(m)
    else
      var u := Played(m, vs[..|vs| - 1]);
      if u.Some? && Possible(u.value, vs[|vs| - 1]) then Some(Next(u.value, vs[|vs| - 1])) else None
  }

  lemma PlayedOne(m: Mail, vs: seq<Move>, v: Move, u: Mail)
    requires Played(m, vs) == Some(u) && Possible(u, v)
    ensures Played(m, vs + [v]) == Some(Next(u, v))
  {
    assert (vs + [v])[..|vs + [v]| - 1] == vs;
  }

  lemma {:induction false} PlayedJoins(m: Mail, a: seq<Move>, b: seq<Move>, u: Mail)
    requires Played(m, a) == Some(u) && Played(u, b).Some?
    ensures Played(m, a + b) == Played(u, b)
    decreases |b|
  {
    if b == [] {
      assert a + b == a;
    } else {
      var k := |b| - 1;
      PlayedJoins(m, a, b[..k], u);
      assert (a + b)[..|a + b| - 1] == a + b[..k];
    }
  }

  /** An empty slot stays empty, with nothing in the hand, until something is published. */
  lemma {:induction false} EmptyUntilPublish(m: Mail, vs: seq<Move>)
    requires Played(m, vs).Some? && m.slot.None? && m.hand.None?
    ensures Publish in vs || (Played(m, vs).value.slot.None? && Played(m, vs).value.hand.None?)
    decreases |vs|
  {
    if vs != [] {
      EmptyUntilPublish(m, vs[..|vs| - 1]);
    }
  }

  /** Between a take and the put-back that follows it only the handler moves. */
  lemma OvertakenWhileHeld(earlier: seq<Move>, between: seq<Move>)
    requires Handlers(between)
    ensures var vs := earlier + [Take] + between + [PutBack];
            Overtaken(vs, |vs| - 1) <==> Publish in between
  {
    var vs, t := earlier + [Take] + between + [PutBack], |earlier|;
    forall u | t < u < |vs| - 1 ensures vs[u] == between[u - t - 1] && vs[u] in between {
    }
    assert LastTake(vs, t, |vs| - 1);
    if Publish in between {
      var p :| 0 <= p < |between| && between[p] == Publish;
      assert vs[t + 1 + p] == Publish;
    }
  }

  class AgentRPC {
    var remote: Option<nat>
    var phase: Phase
    var accepted: nat
    var latest: nat

    ghost function View(hand: Option<Held>): Mail
      reads this
    {
      Mail(remote, phase, accepted, latest, hand)
    }

    constructor ()
      ensures View(None) == EMPTY
    {
      remote, phase, accepted, latest := None, Listening, 0, 0;
    }

    /** One move of the connection handler; a move that is not possible now waits. */
    method Handle(v: Move, ghost hand: Option<Held>)
      requires Inv(View(hand)) && HandlerMove(v)
      modifies this
      ensures View(hand) == if Possible(old(View(hand)), v) then Next(old(View(hand)), v) else old(View(hand))
      ensures Inv(View(hand)) && old(latest) <= latest
      ensures (v.Retire? && old(phase).Live?) || (v.ClearFirst? && old(phase).Accepted?) ==> remote.None?
    {
      NextWhenPossible(View(hand), v);
      match v
      case Accept =>
        if phase.Listening? {
          accepted := accepted + 1;
          phase := Accepted(accepted);
        }
      case ClearFirst =>
        if phase.Accepted? {
          remote := None;
          phase := Linking(phase.k);
        }
      case LinkFails =>
        if phase.Linking? {
          phase := Listening;
        }
      case Found =>
        if phase.Linking? {
          phase := Publishing(phase.k);
        }
      case Publish =>
        if phase.Publishing? && remote.None? {
          remote, latest := Some(phase.k), phase.k;
          phase := Live(phase.k);
        }
      case Retire =>
        if phase.Live? {
          remote := None;
          phase := Listening;
        }
    }

    lemma NextWhenPossible(m: Mail, v: Move)
      requires Inv(m)
      ensures Possible(m, v) ==> Inv(Next(m, v))
      ensures Possible(m, v) ==> m.latest <= Next(m, v).latest
    {
    }

    lemma OnlyPublishRaises(m: Mail, v: Move)
      requires Inv(m) && Possible(m, v)
      ensures Next(m, v).latest == m.latest <==> v != Publish
    {
    }

    /** The handler runs for a while; `done` are the moves that were possible. */
    method Handler(vs: seq<Move>, ghost hand: Option<Held>) returns (ghost done: seq<Move>)
      requires Inv(View(hand)) && Handlers(vs)
      modifies this
      ensures Inv(View(hand)) && old(latest) <= latest
      ensures Handlers(done) && Played(old(View(hand)), done) == Some(View(hand))
      ensures old(latest) == latest <==> Publish !in done
      ensures vs == [] ==> View(hand) == old(View(hand)) && done == []
    {
      done := [];
      for i := 0 to |vs|
        invariant Inv(View(hand)) && old(latest) <= latest
        invariant Handlers(done) && Played(old(View(hand)), done) == Some(View(hand))
        invariant old(latest) == latest <==> Publish !in done
        invariant i == 0 ==> View(hand) == old(View(hand)) && done == []
      {
        assert vs[i] in vs;
        ghost var m := View(hand);
        Handle(vs[i], hand);
        if Possible(m, vs[i]) {
          PlayedOne(old(View(hand)), done, vs[i], m);
          OnlyPublishRaises(m, vs[i]);
          done := done + [vs[i]];
        }
      }
    }

    /** Once round its loop: the handler moves, the remote is taken if there is one, the handler moves again, and the
        remote is put back if the slot is free. `taken` says whether it was. */
    method Receive(before: seq<Move>, between: seq<Move>)
      returns (r: Option<nat>, ghost taken: bool, ghost earlier: seq<Move>, ghost held: seq<Move>)
      requires Inv(View(None)) && Handlers(before) && Handlers(between)
      modifies this
      ensures Inv(View(None)) && Handlers(earlier) && Handlers(held) && (r.Some? ==> taken)
      ensures Played(old(View(None)), RoundMoves(r.Some?, taken, earlier, held)) == Some(View(None))
      ensures r.Some? ==> remote == r && (phase.Live? ==> r.value == phase.k)
      ensures r.Some? && Publish in held ==> r.value < latest && !phase.Live?
      ensures r.None? ==> (taken <==> remote.Some?)
      ensures before == [] && between == [] ==> View(None) == old(View(None)) && r == old(remote)
    {
      ghost var start := View(None);
      earlier := Handler(before, None);
      r, taken, held := None, false, [];
      if remote.Some? {
        ghost var hand := Some(Held(remote.value, latest));
        var first := remote.value;
        PlayedOne(start, earlier, Take, View(None));
        remote, taken := None, true;
        ghost var m := View(hand);
        held := Handler(between, hand);
        PlayedJoins(start, earlier + [Take], held, m);
        if remote.None? {
          PlayedOne(start, earlier + [Take] + held, PutBack, View(hand));
          remote, r := Some(first), Some(first);
        } else {
          PlayedOne(start, earlier + [Take] + held, Miss, View(hand));
        }
      }
    }

    /** The moves of one such round. */
    static ghost function RoundMoves(returned: bool, taken: bool, earlier: seq<Move>, held: seq<Move>): seq<Move> {
      if taken then earlier + [Take] + held + [if returned then PutBack else Miss] else earlier
    }

    /** GetRemote (lines 146-170), with the handler running before each receive and between a receive and the attempt to
        put the remote back; `patience` is the number of times round before the context ends. `moves` are the moves of
        consumer and handler in their order, and `quiet` says that none published between the last take and put-back. */
    method GetRemote(handler: nat -> seq<Move>, patience: nat)
      returns (r: Option<nat>, ghost moves: seq<Move>, ghost quiet: bool)
      requires Inv(View(None)) && forall k :: Handlers(handler(k))
      modifies this
      ensures Inv(View(None)) && Played(old(View(None)), moves) == Some(View(None))
      ensures r.Some? <==> moves != [] && moves[|moves| - 1] == PutBack
      ensures r.Some? ==> (quiet <==> !Overtaken(moves, |moves| - 1))
      ensures r.Some? ==> remote == r && (phase.Live? ==> r.value == phase.k)
      ensures r.Some? && !quiet ==> r.value < latest && !phase.Live?
      ensures old(remote).None? && Publish !in moves ==> r.None?
      ensures r.None? && remote.Some? && patience > 0 ==> moves != [] && moves[|moves| - 1] == Miss
      ensures (forall k :: handler(k) == []) ==>
                View(None) == old(View(None)) && r == (if patience > 0 then old(remote) else None)
    {
      moves, quiet := [], true;
      ghost var start := View(None);
      for round := 0 to patience
        invariant Inv(View(None)) && Played(start, moves) == Some(View(None))
        invariant moves != [] ==> moves[|moves| - 1] != PutBack
        invariant round > 0 && remote.Some? ==> moves != [] && moves[|moves| - 1] == Miss
        invariant (forall k :: handler(k) == []) ==> View(None) == start && (round > 0 ==> remote.None?)
      {
        ghost var m := View(None);
        ghost var taken, earlier, held;
        r, taken, earlier, held := Receive(handler(2 * round), handler(2 * round + 1));
        ghost var more := RoundMoves(r.Some?, taken, earlier, held);
        if r.Some? {
          Returned(start, moves, m, earlier, held, View(None));
          moves, quiet := moves + more, Publish !in held;
          if start.slot.None? {
            NothingToReturn(start, moves, View(None));
          }
          return;
        }
        GoesRound(start, moves, m, taken, earlier, held, View(None));
        moves := moves + more;
      }
      r := None;
    }

    lemma Returned(start: Mail, moves: seq<Move>, m: Mail, earlier: seq<Move>, held: seq<Move>, now: Mail)
      requires Played(start, moves) == Some(m) && Handlers(held)
      requires Played(m, RoundMoves(true, true, earlier, held)) == Some(now)
      ensures var all := moves + RoundMoves(true, true, earlier, held);
              && Played(start, all) == Some(now) && all != [] && all[|all| - 1] == PutBack
              && (Publish !in held <==> !Overtaken(all, |all| - 1))
    {
      var more := RoundMoves(true, true, earlier, held);
      PlayedJoins(start, moves, more, m);
      OvertakenWhileHeld(moves + earlier, held);
      assert moves + more == moves + earlier + [Take] + held + [PutBack];
    }

    lemma NothingToReturn(start: Mail, moves: seq<Move>, now: Mail)
      requires Played(start, moves) == Some(now) && start.slot.None? && start.hand.None? && now.slot.Some?
      ensures Publish in moves
    {
      EmptyUntilPublish(start, moves);
    }

    lemma GoesRound(start: Mail, moves: seq<Move>, m: Mail, taken: bool, earlier: seq<Move>, held: seq<Move>, now: Mail)
      requires Played(start, moves) == Some(m) && Handlers(earlier) && (moves != [] ==> moves[|moves| - 1] != PutBack)
      requires Played(m, RoundMoves(false, taken, earlier, held)) == Some(now)
      ensures var all := moves + RoundMoves(false, taken, earlier, held);
              && Played(start, all) == Some(now) && (all != [] ==> all[|all| - 1] != PutBack)
              && (taken ==> all != [] && all[|all| - 1] == Miss)
    {
      PlayedJoins(start, moves, RoundMoves(false, taken, earlier, held), m);
      if !taken && earlier != [] {
        assert earlier[|earlier| - 1] in earlier;
      }
    }
  }
}
