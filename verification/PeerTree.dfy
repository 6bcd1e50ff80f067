/** Peers that hand a machine on (peer.go, migrations.go:370-447, 460-568). Each peer receives it from one migration of
    an earlier peer, or from its own files if it is the first, and may migrate it away any number of times, each time to
    a peer of its own. Every migration is a whole handover system, so a run of the tree interleaves the device threads,
    guests and copies of its migrations with the calls of the peers' users.

    MigrateTo returns when some device loop has failed or all have ended. Loops that have not ended go on after that,
    and may stop a machine that the user has resumed in the meantime. Users make one call of a peer at a time, and
    resume or migrate a peer only after its MigrateFrom has returned. Nothing else is asked of them here: what else they
    must not do is what the theorems are about. */
module PeerTree {
  import opened Handover
  import opened HandoverSystem
  import opened Chains
  import opened Migration
  import I = HandoverInvariants
  import H = HandoverCompletion

  /** MigrateFrom is under way, has failed, or has returned without an error. */
  datatype Stage = Waiting | GaveUp | Returned

  /** `up` says whether the machine runs; `calling`, that the last migration's MigrateTo has not returned; `closes`
      counts the calls of close(ready). */
  datatype Peer = Peer(stage: Stage, up: bool, calling: bool, migrations: seq<State>, closes: nat)

  /** Where a peer gets its machine: migration `k` of peer `i`. */
  datatype Origin = Files | From(i: nat, k: nat)

  /** The first peer starts from files; every other one belongs to one migration of an earlier peer. */
  predicate Tree(origins: seq<Origin>) {
    && (forall j :: 0 <= j < |origins| ==> if j == 0 then origins[j] == Files else origins[j].From? && origins[j].i < j)
    && (forall j, l :: 0 <= j < l < |origins| ==> origins[j] != origins[l])
  }

  datatype Event =
    | AuthorityArrives(i: nat)
    | MigrateFromEnds(i: nat, ok: bool)
    | Resume(i: nat, works: bool)
    | Stop(i: nat)
    | MigrateTo(i: nat, s: State)
    | MigrateToEnds(i: nat)
    // a step of migration `k`, under way or returned from
    | Step(i: nat, k: nat, a: Action)

  function Last(p: Peer): State
    requires p.migrations != []
  {
    p.migrations[|p.migrations| - 1]
  }

  /** All migrations of a peer see the machine it has. */
  function SeenBy(ms: seq<State>, up: bool): (ns: seq<State>)
    ensures |ns| == |ms| && forall k :: 0 <= k < |ms| ==> ns[k] == Seen(ms[k], up)
  {
    seq(|ms|, k requires 0 <= k < |ms| => Seen(ms[k], up))
  }

  /** The events sent on the way that ends at peer `j`. */
  function SentTo(origins: seq<Origin>, c: seq<Peer>, j: nat): nat
    requires j < |origins| == |c|
  {
    var o := origins[j];
    if o.From? && o.i < |c| && o.k < |c[o.i].migrations| then Sends(c[o.i].migrations[o.k]) else 0
  }

  predicate Possible(origins: seq<Origin>, c: seq<Peer>, e: Event) {
    && e.i < |c| == |origins|
    && var p := c[e.i];
       match e
       case AuthorityArrives(i) => p.closes < SentTo(origins, c, i)
       case MigrateFromEnds(i, ok) => p.stage == Waiting && (ok ==> origins[i].Files? || p.closes > 0)
       case Resume(_, _) => p.stage == Returned && !p.calling
       case Stop(_) => true
       case MigrateTo(_, s) => p.stage == Returned && !p.calling && Init(s) && s.running == p.up
       case MigrateToEnds(_) => p.calling && p.migrations != [] && Over(Last(p))
       case Step(_, k, a) => k < |p.migrations| && Enabled(p.migrations[k], a)
  }

  /** Migration `k` has come to `s`, and with it the machine to where it is in `s`. */
  function Stepped(p: Peer, k: nat, s: State): Peer
    requires k < |p.migrations|
  {
    p.(migrations := SeenBy(p.migrations[k := s], s.running), up := s.running)
  }

  function Turned(p: Peer, up: bool): Peer {
    p.(up := up, migrations := SeenBy(p.migrations, up))
  }

  function After(p: Peer, e: Event): Peer
    requires e.Step? ==> e.k < |p.migrations| && Enabled(p.migrations[e.k], e.a)
  {
    match e
    case AuthorityArrives(_) => p.(closes := p.closes + 1)
    case MigrateFromEnds(_, ok) => p.(stage := if ok then Returned else GaveUp)
    case Resume(_, works) => Turned(p, p.up || works)
    case Stop(_) => Turned(p, false)
    case MigrateTo(_, s) => p.(migrations := p.migrations + [s], calling := true)
    case MigrateToEnds(_) => p.(calling := false)
    case Step(_, k, a) => Stepped(p, k, Do(p.migrations[k], a))
  }

  function Next(origins: seq<Origin>, c: seq<Peer>, e: Event): (d: seq<Peer>)
    requires Possible(origins, c, e)
    ensures |d| == |c|
  {
    c[e.i := After(c[e.i], e)]
  }

  const FRESH: Peer := Peer(Waiting, false, false, [], 0)

  predicate Start(origins: seq<Origin>, c: seq<Peer>) {
    |c| == |origins| && forall i | 0 <= i < |c| :: c[i] == FRESH
  }

  predicate TreeRun(origins: seq<Origin>, cs: seq<seq<Peer>>, es: seq<Event>) {
    && Tree(origins) && |cs| == |es| + 1
    && Start(origins, cs[0])
    && forall k | 0 <= k < |es| :: Possible(origins, cs[k], es[k]) && cs[k + 1] == Next(origins, cs[k], es[k])
  }

  // ----- the rule -----

  /** One of the peer's migrations has set its transfer flag. */
  predicate Handed(p: Peer) {
    exists k | 0 <= k < |p.migrations| :: p.migrations[k].m.transferCompleted
  }

  /** A user breaks the rule by resuming or migrating a peer that has already handed its machine over. */
  predicate Breaks(c: seq<Peer>, e: Event) {
    (e.Resume? || e.MigrateTo?) && e.i < |c| && Handed(c[e.i])
  }

  predicate RuleKept(cs: seq<seq<Peer>>, es: seq<Event>)
    requires |cs| == |es| + 1
  {
    forall k | 0 <= k < |es| :: !Breaks(cs[k], es[k])
  }

  // ----- the invariant -----

  ghost function SoundHere(): State -> bool {
    (s: State) => Sound(s)
  }

  ghost function ControlHere(): State -> bool {
    (s: State) => I.Control(s)
  }

  ghost predicate AllHold(p: Peer, sound: State -> bool) {
    forall k | 0 <= k < |p.migrations| :: sound(p.migrations[k])
  }

  /** All migrations see the machine as it is. */
  predicate Current(p: Peer) {
    forall k | 0 <= k < |p.migrations| :: p.migrations[k].running == p.up
  }

  /** Migration `k` is not the one being called. */
  predicate Past(p: Peer, k: nat) {
    k < |p.migrations| && (k < |p.migrations| - 1 || !p.calling)
  }

  ghost predicate PastOver(p: Peer) {
    forall k: nat | Past(p, k) :: Over(p.migrations[k])
  }

  ghost predicate CallHolds(p: Peer, control: State -> bool) {
    p.calling ==> p.migrations != [] && control(Last(p))
  }

  predicate Staged(p: Peer) {
    p.up || p.migrations != [] ==> p.stage == Returned
  }

  ghost predicate Kept(p: Peer, sound: State -> bool, control: State -> bool) {
    AllHold(p, sound) && Current(p) && PastOver(p) && CallHolds(p, control) && Staged(p)
  }

  /** Every migration is sound and sees the machine as it is, and all but one being called are over. */
  ghost predicate PeerKept(p: Peer) {
    Kept(p, SoundHere(), ControlHere())
  }

  lemma MigrationSound(p: Peer, k: nat)
    requires PeerKept(p) && k < |p.migrations|
    ensures Sound(p.migrations[k])
  {
    assert SoundHere()(p.migrations[k]);
  }

  /** Under the rule only the last migration can have handed the machine over, and then nothing runs here any more. */
  ghost predicate HandedLast(p: Peer) {
    && (forall k | 0 <= k < |p.migrations| - 1 :: !p.migrations[k].m.transferCompleted)
    && (Handed(p) ==> !p.up)
  }

  ghost predicate LinkKept(origins: seq<Origin>, c: seq<Peer>, j: nat)
    requires j < |origins| == |c|
  {
    c[j].closes <= SentTo(origins, c, j) && (c[j].stage == Returned ==> origins[j].Files? || c[j].closes > 0)
  }

  // ----- what turning the machine on or off leaves -----

  lemma SeenSame(s: State, up: bool)
    ensures Over(s) ==> Over(Seen(s, up))
    ensures Sends(Seen(s, up)) == Sends(s) && Seen(s, up).m == s.m
  {
    assert Calling(Seen(s, up)) == Calling(s);
    if n :| n in s.pc && s.pc[n].Failed? {
      assert Seen(s, up).pc[n].Failed?;
    }
  }

  /** Being sound has nothing to do with the machine, and the whole invariant survives its stop. */
  ghost predicate Blind(sound: State -> bool, control: State -> bool) {
    && (forall s, up | sound(s) :: sound(Seen(s, up)))
    && (forall s | control(s) :: control(Seen(s, false)))
  }

  lemma SoundIsBlind()
    ensures Blind(SoundHere(), ControlHere())
  {
    forall s, up | SoundHere()(s) ensures SoundHere()(Seen(s, up)) {
      SeenSound(s, up);
    }
    forall s | ControlHere()(s) ensures ControlHere()(Seen(s, false)) {
      StoppedKeepsControl(s);
    }
  }

  lemma SeenOver(ms: seq<State>, up: bool, k: nat)
    requires k < |ms| && Over(ms[k])
    ensures Over(SeenBy(ms, up)[k])
  {
    SeenSame(ms[k], up);
  }

  lemma TurnedKept(p: Peer, up: bool, sound: State -> bool, control: State -> bool)
    requires Blind(sound, control) && Kept(p, sound, control)
    requires up ==> p.stage == Returned && !p.calling
    ensures Kept(Turned(p, up), sound, control)
  {
    var q := Turned(p, up);
    forall k: nat | Past(q, k) ensures Over(q.migrations[k]) {
      assert Past(p, k);
      SeenOver(p.migrations, up, k);
    }
  }

  lemma MigratedKept(p: Peer, s: State, sound: State -> bool, control: State -> bool)
    requires Kept(p, sound, control) && p.stage == Returned && !p.calling
    requires sound(s) && control(s) && s.running == p.up
    ensures Kept(p.(migrations := p.migrations + [s], calling := true), sound, control)
  {
    var q := p.(migrations := p.migrations + [s], calling := true);
    forall k: nat | Past(q, k) ensures Over(q.migrations[k]) {
      assert Past(p, k);
    }
  }

  lemma ReturnedKept(p: Peer, sound: State -> bool, control: State -> bool)
    requires Kept(p, sound, control) && p.calling && p.migrations != [] && Over(Last(p))
    ensures Kept(p.(calling := false), sound, control)
  {
    forall k: nat | Past(p.(calling := false), k) ensures Over(p.migrations[k]) {
      assert k < |p.migrations| - 1 ==> Past(p, k);
    }
  }

  // ----- a step of one of the migrations -----

  /** What the step of migration `k` to `t` has kept. */
  ghost predicate StepKept(p: Peer, k: nat, t: State, sound: State -> bool, control: State -> bool)
    requires k < |p.migrations|
  {
    && sound(t) && (t.running ==> p.up) && Sends(p.migrations[k]) <= Sends(t)
    && (Past(p, k) ==> Over(t) && t.m.transferCompleted == p.migrations[k].m.transferCompleted)
    && (!Past(p, k) ==> control(t) && (t.m.transferCompleted ==> !t.running))
  }

  lemma OnwardKept(p: Peer, k: nat, t: State, sound: State -> bool, control: State -> bool)
    requires Current(p) && PastOver(p) && k < |p.migrations| && sound(t) && Onward(p.migrations[k], t)
    requires !Past(p, k) ==> control(t) && (t.m.transferCompleted ==> !t.running)
    ensures StepKept(p, k, t, sound, control)
  {
  }

  lemma CalledHolds(p: Peer, k: nat, sound: State -> bool, control: State -> bool)
    requires Kept(p, sound, control) && k < |p.migrations| && !Past(p, k)
    ensures control(p.migrations[k])
  {
  }

  lemma CalledControl(p: Peer, k: nat)
    requires PeerKept(p) && k < |p.migrations| && !Past(p, k)
    ensures I.Control(p.migrations[k])
  {
    CalledHolds(p, k, SoundHere(), ControlHere());
  }

  lemma ActionKept(p: Peer, k: nat, a: Action)
    requires PeerKept(p) && k < |p.migrations| && Enabled(p.migrations[k], a)
    ensures StepKept(p, k, Do(p.migrations[k], a), SoundHere(), ControlHere())
  {
    var s := p.migrations[k];
    MigrationSound(p, k);
    ActionOnward(s, a);
    if !Past(p, k) {
      CalledControl(p, k);
      CalledOnward(s, a);
    }
    OnwardKept(p, k, Do(s, a), SoundHere(), ControlHere());
  }

  lemma SteppedKept(p: Peer, k: nat, t: State, sound: State -> bool, control: State -> bool)
    requires Blind(sound, control) && Kept(p, sound, control)
    requires k < |p.migrations| && StepKept(p, k, t, sound, control)
    ensures Kept(Stepped(p, k, t), sound, control)
  {
    var q := Stepped(p, k, t);
    forall j: nat | Past(q, j) ensures Over(q.migrations[j]) {
      assert Past(p, j);
      SeenOver(p.migrations[k := t], t.running, j);
    }
    forall j | 0 <= j < |q.migrations| ensures sound(q.migrations[j]) {
      assert q.migrations[j] == Seen(if j == k then t else p.migrations[j], t.running);
    }
    if q.calling {
      SteppedCall(p, k, t, sound, control);
    }
  }

  lemma SteppedCall(p: Peer, k: nat, t: State, sound: State -> bool, control: State -> bool)
    requires Blind(sound, control) && Current(p) && p.calling && CallHolds(p, control)
    requires k < |p.migrations| && StepKept(p, k, t, sound, control)
    ensures control(Last(Stepped(p, k, t)))
  {
    if Past(p, k) {
      assert Last(Stepped(p, k, t)) == Seen(Last(p), t.running);
      if t.running {
        assert Seen(Last(p), t.running) == Last(p);
      }
    } else {
      assert Last(Stepped(p, k, t)) == Seen(t, t.running) == t;
    }
  }

  lemma AfterKept(origins: seq<Origin>, c: seq<Peer>, e: Event, sound: State -> bool, control: State -> bool)
    requires Possible(origins, c, e) && Blind(sound, control) && Kept(c[e.i], sound, control)
    requires e.MigrateTo? ==> sound(e.s) && control(e.s)
    requires e.Step? ==> StepKept(c[e.i], e.k, Do(c[e.i].migrations[e.k], e.a), sound, control)
    ensures Kept(After(c[e.i], e), sound, control)
  {
    var p := c[e.i];
    match e
    case AuthorityArrives(_) =>
    case MigrateFromEnds(_, ok) =>
    case Resume(_, works) => TurnedKept(p, p.up || works, sound, control);
    case Stop(_) => TurnedKept(p, false, sound, control);
    case MigrateTo(_, s) => MigratedKept(p, s, sound, control);
    case MigrateToEnds(_) => ReturnedKept(p, sound, control);
    case Step(_, k, a) => SteppedKept(p, k, Do(p.migrations[k], a), sound, control);
  }

  lemma AfterKeepsPeer(origins: seq<Origin>, c: seq<Peer>, e: Event)
    requires Possible(origins, c, e) && PeerKept(c[e.i])
    ensures PeerKept(After(c[e.i], e))
  {
    SoundIsBlind();
    if e.MigrateTo? {
      InitSound(e.s);
    } else if e.Step? {
      ActionKept(c[e.i], e.k, e.a);
    }
    AfterKept(origins, c, e, SoundHere(), ControlHere());
  }

  // ----- the rule and the flags -----

  lemma TurnedHanded(p: Peer, up: bool)
    requires HandedLast(p) && (up ==> p.up || !Handed(p))
    ensures HandedLast(Turned(p, up))
  {
    var q := Turned(p, up);
    forall k | 0 <= k < |p.migrations| ensures q.migrations[k].m == p.migrations[k].m {
    }
    if Handed(q) {
      var k :| 0 <= k < |q.migrations| && q.migrations[k].m.transferCompleted;
      assert p.migrations[k].m.transferCompleted;
    }
  }

  lemma MigratedHanded(p: Peer, s: State)
    requires !Handed(p) && !s.m.transferCompleted
    ensures HandedLast(p.(migrations := p.migrations + [s], calling := true))
  {
    var q := p.(migrations := p.migrations + [s], calling := true);
    forall k | 0 <= k < |q.migrations| ensures !q.migrations[k].m.transferCompleted {
      assert k < |p.migrations| ==> q.migrations[k] == p.migrations[k];
    }
  }

  lemma SteppedHanded(p: Peer, k: nat, t: State, sound: State -> bool, control: State -> bool)
    requires HandedLast(p) && k < |p.migrations| && StepKept(p, k, t, sound, control)
    ensures HandedLast(Stepped(p, k, t))
  {
    var q, last := Stepped(p, k, t), |p.migrations| - 1;
    forall j | 0 <= j < last ensures !q.migrations[j].m.transferCompleted {
      assert q.migrations[j].m == (if j == k then t else p.migrations[j]).m;
      assert Past(p, j);
    }
    if Handed(q) {
      assert q.migrations[last].m == (if last == k then t else p.migrations[last]).m;
      assert Past(p, k) ==> p.migrations[last].m.transferCompleted;
    }
  }

  lemma AfterKeepsHanded(origins: seq<Origin>, c: seq<Peer>, e: Event)
    requires Possible(origins, c, e) && PeerKept(c[e.i]) && HandedLast(c[e.i]) && !Breaks(c, e)
    ensures HandedLast(After(c[e.i], e))
  {
    var p := c[e.i];
    match e
    case AuthorityArrives(_) =>
    case MigrateFromEnds(_, ok) =>
    case Resume(_, works) => TurnedHanded(p, p.up || works);
    case Stop(_) => TurnedHanded(p, false);
    case MigrateTo(_, s) =>
      InitSound(s);
      MigratedHanded(p, s);
    case MigrateToEnds(_) =>
    case Step(_, k, a) =>
      ActionKept(p, k, a);
      SteppedHanded(p, k, Do(p.migrations[k], a), SoundHere(), ControlHere());
  }

  // ----- the whole tree -----

  /** No migration is lost, and none takes an event back. */
  ghost predicate Grown(p: Peer, q: Peer) {
    && |p.migrations| <= |q.migrations|
    && forall k | 0 <= k < |p.migrations| :: Sends(p.migrations[k]) <= Sends(q.migrations[k])
  }

  lemma TurnedGrows(p: Peer, up: bool)
    ensures Grown(p, Turned(p, up))
  {
    forall k | 0 <= k < |p.migrations| ensures Sends(p.migrations[k]) <= Sends(Turned(p, up).migrations[k]) {
      SeenSame(p.migrations[k], up);
    }
  }

  lemma SteppedGrows(p: Peer, k: nat, t: State)
    requires k < |p.migrations| && Sends(p.migrations[k]) <= Sends(t)
    ensures Grown(p, Stepped(p, k, t))
  {
    forall j | 0 <= j < |p.migrations| ensures Sends(p.migrations[j]) <= Sends(Stepped(p, k, t).migrations[j]) {
      SeenSame(if j == k then t else p.migrations[j], t.running);
    }
  }

  lemma AfterGrows(origins: seq<Origin>, c: seq<Peer>, e: Event)
    requires Possible(origins, c, e) && PeerKept(c[e.i])
    ensures Grown(c[e.i], After(c[e.i], e))
  {
    var p := c[e.i];
    match e
    case AuthorityArrives(_) =>
    case MigrateFromEnds(_, ok) =>
    case Resume(_, works) => TurnedGrows(p, p.up || works);
    case Stop(_) => TurnedGrows(p, false);
    case MigrateTo(_, s) =>
    case MigrateToEnds(_) =>
    case Step(_, k, a) =>
      ActionKept(p, k, a);
      SteppedGrows(p, k, Do(p.migrations[k], a));
  }

  ghost predicate TreeKept(origins: seq<Origin>, c: seq<Peer>) {
    && Tree(origins) && |c| == |origins|
    && (forall i :: 0 <= i < |c| ==> PeerKept(c[i]))
    && (forall j :: 0 <= j < |c| ==> LinkKept(origins, c, j))
  }

  ghost predicate RuleState(origins: seq<Origin>, c: seq<Peer>) {
    TreeKept(origins, c) && forall i :: 0 <= i < |c| ==> HandedLast(c[i])
  }

  lemma NextGrows(origins: seq<Origin>, c: seq<Peer>, e: Event, i: nat)
    requires TreeKept(origins, c) && Possible(origins, c, e) && i < |c|
    ensures Grown(c[i], Next(origins, c, e)[i])
  {
    if i == e.i {
      AfterGrows(origins, c, e);
    }
  }

  lemma LinkGrows(origins: seq<Origin>, c: seq<Peer>, d: seq<Peer>, j: nat)
    requires j < |origins| == |c| == |d| && forall i | 0 <= i < |c| :: Grown(c[i], d[i])
    ensures SentTo(origins, c, j) <= SentTo(origins, d, j)
  {
    var o := origins[j];
    if o.From? && o.i < |c| && o.k < |c[o.i].migrations| {
      assert Grown(c[o.i], d[o.i]);
    }
  }

  lemma NextKeepsLink(origins: seq<Origin>, c: seq<Peer>, e: Event, j: nat)
    requires Possible(origins, c, e) && j < |c| && LinkKept(origins, c, j)
    requires SentTo(origins, c, j) <= SentTo(origins, Next(origins, c, e), j)
    ensures LinkKept(origins, Next(origins, c, e), j)
  {
  }

  lemma NextKeepsPeers(origins: seq<Origin>, c: seq<Peer>, e: Event, i: nat)
    requires TreeKept(origins, c) && Possible(origins, c, e) && i < |c|
    ensures PeerKept(Next(origins, c, e)[i])
  {
    if i == e.i {
      AfterKeepsPeer(origins, c, e);
    }
  }

  lemma NextKeepsTree(origins: seq<Origin>, c: seq<Peer>, e: Event)
    requires TreeKept(origins, c) && Possible(origins, c, e)
    ensures TreeKept(origins, Next(origins, c, e))
  {
    var d := Next(origins, c, e);
    forall i: nat | i < |d| ensures PeerKept(d[i]) && Grown(c[i], d[i]) {
      NextKeepsPeers(origins, c, e, i);
      NextGrows(origins, c, e, i);
    }
    forall j: nat | j < |d| ensures LinkKept(origins, d, j) {
      LinkGrows(origins, c, d, j);
      NextKeepsLink(origins, c, e, j);
    }
  }

  lemma NextKeepsRule(origins: seq<Origin>, c: seq<Peer>, e: Event)
    requires RuleState(origins, c) && Possible(origins, c, e) && !Breaks(c, e)
    ensures RuleState(origins, Next(origins, c, e))
  {
    NextKeepsTree(origins, c, e);
    AfterKeepsHanded(origins, c, e);
  }

  lemma StartKept(origins: seq<Origin>, c: seq<Peer>)
    requires Tree(origins) && Start(origins, c)
    ensures RuleState(origins, c)
  {
  }

  lemma TreeStep(origins: seq<Origin>, cs: seq<seq<Peer>>, es: seq<Event>, k: nat)
    requires TreeRun(origins, cs, es) && k < |es|
    ensures Possible(origins, cs[k], es[k]) && cs[k + 1] == Next(origins, cs[k], es[k])
  {
  }

  lemma RunKeepsTree(origins: seq<Origin>, cs: seq<seq<Peer>>, es: seq<Event>, k: nat)
    requires TreeRun(origins, cs, es) && k < |cs|
    ensures TreeKept(origins, cs[k])
  {
    StartKept(origins, cs[0]);
    var p := (c: seq<Peer>) => TreeKept(origins, c);
    forall i | 0 <= i < |cs| - 1 && p(cs[i]) ensures p(cs[i + 1]) {
      TreeStep(origins, cs, es, i);
      NextKeepsTree(origins, cs[i], es[i]);
    }
    Stepwise(cs, p, 0, k);
  }

  lemma RunKeepsRule(origins: seq<Origin>, cs: seq<seq<Peer>>, es: seq<Event>, k: nat)
    requires TreeRun(origins, cs, es) && RuleKept(cs, es) && k < |cs|
    ensures RuleState(origins, cs[k])
  {
    StartKept(origins, cs[0]);
    var p := (c: seq<Peer>) => RuleState(origins, c);
    forall i | 0 <= i < |cs| - 1 && p(cs[i]) ensures p(cs[i + 1]) {
      TreeStep(origins, cs, es, i);
      NextKeepsRule(origins, cs[i], es[i]);
    }
    Stepwise(cs, p, 0, k);
  }

  // ----- one machine -----

  function Depth(origins: seq<Origin>, j: nat): nat
    requires Tree(origins) && j < |origins|
    decreases j
  {
    if origins[j].From? then Depth(origins, origins[j].i) + 1 else 0
  }

  /** A peer that returned from MigrateFrom got exactly one event, from a migration that has handed the machine over. */
  lemma ParentHanded(origins: seq<Origin>, c: seq<Peer>, j: nat)
    requires TreeKept(origins, c) && 0 < j < |c| && c[j].stage == Returned
    ensures origins[j].From? && origins[j].i < j && c[j].closes == 1
    ensures var o := origins[j]; var p := c[o.i];
            && p.stage == Returned && o.k < |p.migrations| && p.migrations[o.k].m.transferCompleted && Handed(p)
  {
    assert LinkKept(origins, c, j);
    var o := origins[j];
    MigrationSound(c[o.i], o.k);
    SendsExact(c[o.i].migrations[o.k]);
  }

  lemma LastHanded(p: Peer, k: nat)
    requires HandedLast(p) && k < |p.migrations| && p.migrations[k].m.transferCompleted
    ensures k == |p.migrations| - 1 && !p.up
  {
  }

  lemma {:induction false} SameDepth(origins: seq<Origin>, c: seq<Peer>, u: nat, v: nat)
    requires RuleState(origins, c) && u < |c| && v < |c| && c[u].stage == Returned && c[v].stage == Returned
    requires Depth(origins, u) == Depth(origins, v)
    ensures u == v
    decreases u
  {
    if u > 0 && v > 0 {
      ParentHanded(origins, c, u);
      ParentHanded(origins, c, v);
      var a, b := origins[u], origins[v];
      SameDepth(origins, c, a.i, b.i);
      LastHanded(c[a.i], a.k);
      LastHanded(c[b.i], b.k);
      assert a == b;
    }
  }

  lemma {:induction false} AncestorHanded(origins: seq<Origin>, c: seq<Peer>, v: nat, d: nat) returns (a: nat)
    requires RuleState(origins, c) && v < |c| && c[v].stage == Returned && d < Depth(origins, v)
    ensures a < |c| && c[a].stage == Returned && Depth(origins, a) == d && !c[a].up && Handed(c[a])
    decreases v
  {
    ParentHanded(origins, c, v);
    var o := origins[v];
    if Depth(origins, o.i) == d {
      a := o.i;
      LastHanded(c[a], o.k);
    } else {
      a := AncestorHanded(origins, c, o.i, d);
    }
  }

  lemma OneRuns(origins: seq<Origin>, c: seq<Peer>, u: nat, v: nat)
    requires RuleState(origins, c) && u < |c| && v < |c| && c[u].up && c[v].up
    ensures u == v
  {
    assert PeerKept(c[u]) && PeerKept(c[v]);
    var du, dv := Depth(origins, u), Depth(origins, v);
    if du == dv {
      SameDepth(origins, c, u, v);
    } else if du < dv {
      var a := AncestorHanded(origins, c, v, du);
      SameDepth(origins, c, u, a);
    } else {
      var a := AncestorHanded(origins, c, u, dv);
      SameDepth(origins, c, v, a);
    }
  }

  /** In any tree, at most one peer runs the machine in every state of every run whose users never resume or migrate a
      peer that has handed its machine over: however often migrations fail and are tried again, and whatever the loops
      of failed ones go on to do. */
  lemma AtMostOneRuns(origins: seq<Origin>, cs: seq<seq<Peer>>, es: seq<Event>, k: nat, u: nat, v: nat)
    requires TreeRun(origins, cs, es) && RuleKept(cs, es) && k < |cs| && u < |cs[k]| && v < |cs[k]|
    requires cs[k][u].up && cs[k][v].up
    ensures u == v
  {
    RunKeepsRule(origins, cs, es, k);
    OneRuns(origins, cs[k], u, v);
  }

  /** Whatever the users do, close(ready) never runs twice, and a peer returns from MigrateFrom only on the one event of
      a migration that has handed the machine over and has it suspended. */
  lemma ReadyClosedOnce(origins: seq<Origin>, cs: seq<seq<Peer>>, es: seq<Event>, k: nat, j: nat)
    requires TreeRun(origins, cs, es) && k < |cs| && j < |cs[k]|
    ensures cs[k][j].closes <= 1 && j < |origins|
    ensures j > 0 && cs[k][j].stage == Returned ==>
              var o := origins[j];
              && o.From? && o.i < j && o.k < |cs[k][o.i].migrations|
              && cs[k][o.i].migrations[o.k].m.transferCompleted && cs[k][o.i].migrations[o.k].m.vm.suspended
  {
    RunKeepsTree(origins, cs, es, k);
    var c := cs[k];
    assert LinkKept(origins, c, j);
    var o := origins[j];
    if o.From? && o.k < |c[o.i].migrations| {
      MigrationSound(c[o.i], o.k);
      SendsExact(c[o.i].migrations[o.k]);
    }
    if j > 0 && c[j].stage == Returned {
      ParentHanded(origins, c, j);
      TransferredIsSuspended(c[o.i].migrations[o.k]);
    }
  }

  // ----- what the user of a peer can see of it -----

  lemma RunIsSound(origins: seq<Origin>, cs: seq<seq<Peer>>, es: seq<Event>, k: nat, i: nat, x: nat)
    requires TreeRun(origins, cs, es) && k < |cs| && i < |cs[k]| && x < |cs[k][i].migrations|
    ensures Sound(cs[k][i].migrations[x])
  {
    RunKeepsTree(origins, cs, es, k);
    MigrationSound(cs[k][i], x);
  }

  /** A peer whose migrations never reported the machine suspended has not handed it over. */
  lemma NotSuspendedNotHanded(origins: seq<Origin>, cs: seq<seq<Peer>>, es: seq<Event>, k: nat, i: nat)
    requires TreeRun(origins, cs, es) && k < |cs| && i < |cs[k]|
    requires forall n | 0 <= n < |cs[k][i].migrations| :: !cs[k][i].migrations[n].m.vm.suspended
    ensures !Handed(cs[k][i])
  {
    var p := cs[k][i];
    if n :| 0 <= n < |p.migrations| && p.migrations[n].m.transferCompleted {
      RunIsSound(origins, cs, es, k, i, n);
      TransferredIsSuspended(p.migrations[n]);
    }
  }

  /** A MigrateTo that returned without an error has handed the machine over, with exactly one event. */
  lemma SuccessHandsOver(origins: seq<Origin>, cs: seq<seq<Peer>>, es: seq<Event>, k: nat, i: nat, x: nat)
    requires TreeRun(origins, cs, es) && k < |cs| && i < |cs[k]| && x < |cs[k][i].migrations|
    requires forall n | n in cs[k][i].migrations[x].pc :: cs[k][i].migrations[x].pc[n] == Ended
    ensures Handed(cs[k][i]) && Sends(cs[k][i].migrations[x]) == 1 && cs[k][i].migrations[x].m.vm.suspended
  {
    RunIsSound(origins, cs, es, k, i, x);
    EndedHandsOver(cs[k][i].migrations[x]);
    SendsExact(cs[k][i].migrations[x]);
  }

  /** One that returned an error has handed it over exactly if it is the error of the transfer: the device it names had
      sent its list. Its other loops change nothing about that later. */
  lemma ErrorDecides(origins: seq<Origin>, cs: seq<seq<Peer>>, es: seq<Event>, k: nat, i: nat, x: nat, n: Name)
    requires TreeRun(origins, cs, es) && k < |cs| && i < |cs[k]| && x < |cs[k][i].migrations|
    requires n in cs[k][i].migrations[x].pc && cs[k][i].migrations[x].pc[n].Failed?
    ensures var m := cs[k][i].migrations[x].m;
            n in m.devices && (m.transferCompleted <==> m.devices[n].sentDirty)
    ensures forall l: nat | k <= l < |cs| ::
              && i < |cs[l]| && x < |cs[l][i].migrations|
              && cs[l][i].migrations[x].m.transferCompleted == cs[k][i].migrations[x].m.transferCompleted
  {
    RunIsSound(origins, cs, es, k, i, x);
    FailedUnsent(cs[k][i].migrations[x], n);
    forall l: nat | k <= l < |cs|
      ensures i < |cs[l]| && x < |cs[l][i].migrations|
      ensures cs[l][i].migrations[x].m.transferCompleted == cs[k][i].migrations[x].m.transferCompleted
    {
      FlagIsFinal(origins, cs, es, k, l, i, x, cs[k][i].migrations[x].m.transferCompleted);
    }
  }

  /** Migration `x` of peer `i` is over, with its flag at `flag`. */
  ghost predicate Settled(c: seq<Peer>, i: nat, x: nat, flag: bool) {
    && i < |c| && x < |c[i].migrations| && Over(c[i].migrations[x])
    && c[i].migrations[x].m.transferCompleted == flag
  }

  lemma SteppedSettled(p: Peer, k: nat, t: State, x: nat)
    requires k < |p.migrations| && x < |p.migrations| && Over(p.migrations[x]) && Onward(p.migrations[k], t)
    ensures var s := Stepped(p, k, t).migrations[x];
            Over(s) && s.m.transferCompleted == p.migrations[x].m.transferCompleted
  {
    SeenSame(if x == k then t else p.migrations[x], t.running);
  }

  lemma NextSettled(origins: seq<Origin>, c: seq<Peer>, e: Event, i: nat, x: nat, flag: bool)
    requires TreeKept(origins, c) && Possible(origins, c, e) && Settled(c, i, x, flag)
    ensures Settled(Next(origins, c, e), i, x, flag)
  {
    if e.i == i {
      AfterSettled(origins, c, e, x);
    }
  }

  lemma AfterSettled(origins: seq<Origin>, c: seq<Peer>, e: Event, x: nat)
    requires Possible(origins, c, e) && PeerKept(c[e.i]) && x < |c[e.i].migrations| && Over(c[e.i].migrations[x])
    ensures var q := After(c[e.i], e);
            && x < |q.migrations| && Over(q.migrations[x])
            && q.migrations[x].m.transferCompleted == c[e.i].migrations[x].m.transferCompleted
  {
    var p := c[e.i];
    match e
    case AuthorityArrives(_) =>
    case MigrateFromEnds(_, ok) =>
    case Resume(_, works) => SeenSame(p.migrations[x], p.up || works);
    case Stop(_) => SeenSame(p.migrations[x], false);
    case MigrateTo(_, s) => assert (p.migrations + [s])[x] == p.migrations[x];
    case MigrateToEnds(_) =>
    case Step(_, k, a) =>
      MigrationSound(p, k);
      ActionOnward(p.migrations[k], a);
      SteppedSettled(p, k, Do(p.migrations[k], a), x);
  }

  lemma FlagIsFinal(origins: seq<Origin>, cs: seq<seq<Peer>>, es: seq<Event>, k: nat, l: nat, i: nat, x: nat,
                    flag: bool)
    requires TreeRun(origins, cs, es) && k <= l < |cs| && Settled(cs[k], i, x, flag)
    ensures Settled(cs[l], i, x, flag)
  {
    var p := (c: seq<Peer>) => Settled(c, i, x, flag);
    forall n | k <= n < |cs| - 1 && p(cs[n]) ensures p(cs[n + 1]) {
      RunKeepsTree(origins, cs, es, n);
      TreeStep(origins, cs, es, n);
      NextSettled(origins, cs[n], es[n], i, x, flag);
    }
    Stepwise(cs, p, k, l);
  }

  // ----- the rule is exact -----

  function Moves(origins: seq<Origin>): (seq<Peer>, Event, seq<Peer>) -> bool {
    (c: seq<Peer>, e: Event, d: seq<Peer>) => Possible(origins, c, e) && d == Next(origins, c, e)
  }

  /** An event that keeps the rule. */
  function Lawful(origins: seq<Origin>): (seq<Peer>, Event, seq<Peer>) -> bool {
    (c: seq<Peer>, e: Event, d: seq<Peer>) => Possible(origins, c, e) && !Breaks(c, e) && d == Next(origins, c, e)
  }

  ghost predicate TwoRun(c: seq<Peer>) {
    exists u, v :: 0 <= u < v < |c| && c[u].up && c[v].up
  }

  lemma RuleStateIsSafe(origins: seq<Origin>, c: seq<Peer>)
    requires RuleState(origins, c)
    ensures !TwoRun(c)
  {
    forall u: nat, v: nat | u < v < |c| && c[u].up && c[v].up ensures false {
      OneRuns(origins, c, u, v);
    }
  }

  lemma LawfulKeepsRule(origins: seq<Origin>, c: seq<Peer>, d: seq<Peer>)
    requires RuleState(origins, c) && Linked(Lawful(origins), c, d)
    ensures RuleState(origins, d)
  {
    var p := (x: seq<Peer>) => RuleState(origins, x);
    forall x: seq<Peer>, e: Event, y: seq<Peer> | p(x) && Lawful(origins)(x, e, y) ensures p(y) {
      NextKeepsRule(origins, x, e);
    }
    LinkedKeeps(Lawful(origins), p, c, d);
  }

  /** While some peer runs the machine, resuming another one makes two exactly when that one had handed it over. */
  lemma ResumeIsExact(origins: seq<Origin>, cs: seq<seq<Peer>>, es: seq<Event>, r: nat, i: nat)
    requires TreeRun(origins, cs, es) && RuleKept(cs, es)
    requires r < |cs[|es|]| && cs[|es|][r].up && Possible(origins, cs[|es|], Resume(i, true))
    ensures TwoRun(Next(origins, cs[|es|], Resume(i, true))) <==> Handed(cs[|es|][i])
  {
    var c := cs[|es|];
    RunKeepsRule(origins, cs, es, |es|);
    var d := Next(origins, c, Resume(i, true));
    if Handed(c[i]) {
      assert HandedLast(c[i]) && d[i].up && d[r].up && r != i;
      assert TwoRun(d) by {
        if r < i {
          assert d[r].up && d[i].up;
        } else {
          assert d[i].up && d[r].up;
        }
      }
    } else {
      NextKeepsRule(origins, c, Resume(i, true));
      RuleStateIsSafe(origins, d);
    }
  }

  /** Peer `i` seen through the state of its last migration. */
  function Showing(c: seq<Peer>, i: nat): State -> seq<Peer>
    requires i < |c| && c[i].migrations != []
  {
    (x: State) => c[i := Stepped(c[i], |c[i].migrations| - 1, x)]
  }

  lemma SteppedSame(p: Peer)
    requires p.migrations != [] && Current(p)
    ensures Stepped(p, |p.migrations| - 1, Last(p)) == p
  {
    var k := |p.migrations| - 1;
    assert p.migrations[k := Last(p)] == p.migrations;
    assert SeenBy(p.migrations, p.up) == p.migrations;
  }

  lemma SteppedTwice(p: Peer, x: State, y: State)
    requires p.migrations != []
    ensures var k := |p.migrations| - 1;
            Stepped(Stepped(p, k, x), k, y) == Stepped(p, k, y) && Last(Stepped(p, k, x)) == x
  {
    var k := |p.migrations| - 1;
    assert SeenBy(Stepped(p, k, x).migrations[k := y], y.running) == SeenBy(p.migrations[k := y], y.running);
  }

  lemma StepsShow(origins: seq<Origin>, c: seq<Peer>, i: nat, s: State, t: State)
    requires |c| == |origins| && i < |c| && c[i].migrations != [] && Current(c[i])
    requires Last(c[i]) == s && Linked(H.Moving(), s, t)
    ensures Linked(Lawful(origins), c, c[i := Stepped(c[i], |c[i].migrations| - 1, t)])
  {
    var f := Showing(c, i);
    SteppedSame(c[i]);
    assert f(s) == c;
    LinkedToItself<seq<Peer>, Event>(Lawful(origins), c);
    forall x: State, a: Action, y: State | H.Moving()(x, a, y)
      ensures OneStep(Lawful(origins), f(x), f(y))
    {
      StepShows(origins, c, i, x, a, y);
      assert Lawful(origins)(f(x), Step(i, |c[i].migrations| - 1, a), f(y));
    }
    LinkedThrough(H.Moving(), Lawful(origins), f, s, t, c);
  }

  lemma StepShows(origins: seq<Origin>, c: seq<Peer>, i: nat, x: State, a: Action, y: State)
    requires |c| == |origins| && i < |c| && c[i].migrations != [] && Enabled(x, a) && y == Do(x, a)
    ensures var k, f := |c[i].migrations| - 1, Showing(c, i);
            Possible(origins, f(x), Step(i, k, a)) && Next(origins, f(x), Step(i, k, a)) == f(y)
  {
    var k, b := |c[i].migrations| - 1, Showing(c, i)(x);
    SteppedTwice(c[i], x, y);
    assert b[i].migrations[k] == x;
    assert b[i := Stepped(b[i], k, y)] == Showing(c, i)(y);
  }

  /** What a migration that ran to its end and returned leaves of its source. */
  ghost predicate Left(p: Peer, q: Peer) {
    && q.stage == p.stage && !q.calling && !q.up && Handed(q) && Current(q) && |q.migrations| == |p.migrations| + 1
    && forall k | 0 <= k < |p.migrations| :: q.migrations[k] == Seen(p.migrations[k], false)
  }

  const RESUMED: Peer := Peer(Returned, true, false, [], 1)

  /** The source once its new migration has come to `t`, and once that call has returned. */
  function Migrated(p: Peer, s: State, t: State): Peer {
    Stepped(p.(migrations := p.migrations + [s], calling := true), |p.migrations|, t)
  }

  function Done(p: Peer, s: State, t: State): Peer {
    Migrated(p, s, t).(calling := false)
  }

  ghost predicate AtEnd(t: State) {
    t.m.transferCompleted && Sends(t) == 1 && !t.running && LoopsDone(t)
  }

  lemma EndLeaves(p: Peer, s: State, t: State)
    requires AtEnd(t)
    ensures Left(p, Done(p, s, t))
  {
    assert Done(p, s, t).migrations[|p.migrations|] == Seen(t, t.running);
  }

  lemma CallReturns(origins: seq<Origin>, c: seq<Peer>, i: nat, s: State, t: State)
    requires i < |c| == |origins| && Over(t)
    ensures Linked(Lawful(origins), c[i := Migrated(c[i], s, t)], c[i := Done(c[i], s, t)])
  {
    var b, d := c[i := Migrated(c[i], s, t)], c[i := Done(c[i], s, t)];
    assert Last(b[i]) == Seen(t, t.running);
    SeenSame(t, t.running);
    LinkedToItself<seq<Peer>, Event>(Lawful(origins), b);
    assert Next(origins, b, MigrateToEnds(i)) == d;
    LinkedOn(Lawful(origins), b, b, MigrateToEnds(i), d);
  }

  lemma ArriveAndResume(origins: seq<Origin>, c: seq<Peer>, j: nat)
    requires |c| == |origins| && j < |c| && c[j] == FRESH && SentTo(origins, c, j) > 0
    ensures Linked(Lawful(origins), c, c[j := RESUMED])
  {
    var step := Lawful(origins);
    var c1 := Next(origins, c, AuthorityArrives(j));
    var c2 := Next(origins, c1, MigrateFromEnds(j, true));
    var c3 := Next(origins, c2, Resume(j, true));
    LinkedToItself<seq<Peer>, Event>(step, c);
    LinkedOn(step, c, c, AuthorityArrives(j), c1);
    LinkedOn(step, c, c1, MigrateFromEnds(j, true), c2);
    LinkedOn(step, c, c2, Resume(j, true), c3);
    assert c3 == c[j := RESUMED];
  }

  /** A migration can always be run to its end. */
  lemma RunsToEnd(origins: seq<Origin>, c: seq<Peer>, i: nat, s: State) returns (t: State)
    requires Possible(origins, c, MigrateTo(i, s)) && i < |c| == |origins| && Current(c[i])
    ensures AtEnd(t)
    ensures Linked(Lawful(origins), Next(origins, c, MigrateTo(i, s)), c[i := Migrated(c[i], s, t)])
  {
    var c1 := Next(origins, c, MigrateTo(i, s));
    t := H.CanTransfer(s);
    TransferEnds(s, t);
    StepsShow(origins, c1, i, s, t);
    assert c1[i := Stepped(c1[i], |c[i].migrations|, t)] == c[i := Migrated(c[i], s, t)];
  }

  lemma TransferEnds(s: State, t: State)
    requires H.From(s, t) && t.m.transfers == 1 && t.m.transferCompleted
    requires forall n | n in t.pc :: t.pc[n] == Ended
    ensures AtEnd(t)
  {
    H.FromIsSound(s, t);
    I.InvIsWellFormed(t);
    StoppedKeepsControl(t);
    SendsExact(t);
    TransferredIsStopped(t);
  }

  /** And its destination can then be resumed. */
  lemma HandsTo(origins: seq<Origin>, c: seq<Peer>, i: nat, s: State, j: nat) returns (d: seq<Peer>)
    requires Possible(origins, c, MigrateTo(i, s)) && i < |c| == |origins| && j < |c| && i != j && c[j] == FRESH
    requires Current(c[i]) && origins[j] == From(i, |c[i].migrations|)
    ensures |d| == |c| && d[j] == RESUMED && Left(c[i], d[i])
    ensures forall x | 0 <= x < |c| && x != i && x != j :: d[x] == c[x]
    ensures Linked(Lawful(origins), Next(origins, c, MigrateTo(i, s)), d)
  {
    var lawful, c1 := Lawful(origins), Next(origins, c, MigrateTo(i, s));
    var t := RunsToEnd(origins, c, i, s);
    var c2, c3 := c[i := Migrated(c[i], s, t)], c[i := Done(c[i], s, t)];
    CallReturns(origins, c, i, s, t);
    LinkedJoins(lawful, c1, c2, c3);
    EndLeaves(c[i], s, t);
    EventWaits(origins, c, i, s, t, j);
    ArriveAndResume(origins, c3, j);
    d := c3[j := RESUMED];
    LinkedJoins(lawful, c1, c3, d);
  }

  lemma EventWaits(origins: seq<Origin>, c: seq<Peer>, i: nat, s: State, t: State, j: nat)
    requires i < |c| == |origins| && j < |c| && i != j && origins[j] == From(i, |c[i].migrations|)
    requires AtEnd(t)
    ensures SentTo(origins, c[i := Done(c[i], s, t)], j) > 0
  {
    assert Done(c[i], s, t).migrations[|c[i].migrations|] == Seen(t, t.running);
    SeenSame(t, t.running);
  }

  lemma WaitingIsFresh(origins: seq<Origin>, c: seq<Peer>, i: nat, j: nat)
    requires TreeKept(origins, c) && j < |c| && c[j].stage == Waiting && i < |c| &&
             origins[j] == From(i, |c[i].migrations|)
    ensures c[j] == FRESH && i != j
  {
    assert PeerKept(c[j]) && LinkKept(origins, c, j);
  }

  /** Migrating away once more, with the machine running elsewhere and the next destination waiting, leads to two
      machines without any further breach of the rule exactly when this peer had handed its own over. */
  lemma MigrateIsExact(origins: seq<Origin>, cs: seq<seq<Peer>>, es: seq<Event>, r: nat, i: nat, s: State, j: nat)
    requires TreeRun(origins, cs, es) && RuleKept(cs, es)
    requires r < |cs[|es|]| && cs[|es|][r].up && Possible(origins, cs[|es|], MigrateTo(i, s))
    requires j < |cs[|es|]| == |origins| && i < |origins|
    requires origins[j] == From(i, |cs[|es|][i].migrations|) && cs[|es|][j].stage == Waiting
    ensures (exists d :: Linked(Lawful(origins), Next(origins, cs[|es|], MigrateTo(i, s)), d) && TwoRun(d)) <==>
            Handed(cs[|es|][i])
  {
    var c := cs[|es|];
    RunKeepsRule(origins, cs, es, |es|);
    var c1 := Next(origins, c, MigrateTo(i, s));
    if Handed(c[i]) {
      WaitingIsFresh(origins, c, i, j);
      assert HandedLast(c[i]) && r != i && r != j;
      assert PeerKept(c[i]) && Current(c[i]);
      var d := HandsTo(origins, c, i, s, j);
      assert d[r].up && d[j].up;
      assert TwoRun(d) by {
        if r < j {
          assert d[r].up && d[j].up;
        } else {
          assert d[j].up && d[r].up;
        }
      }
    } else {
      NextKeepsRule(origins, c, MigrateTo(i, s));
      forall d | Linked(Lawful(origins), c1, d) ensures !TwoRun(d) {
        LawfulKeepsRule(origins, c1, d);
        RuleStateIsSafe(origins, d);
      }
    }
  }

  // ----- a migration that fails, and the next one -----

  /** Memory's first msync fails, before any other device has moved. */
  ghost predicate FirstMsyncFails(s: State, t: State) {
    t == s.(pc := s.pc[MEMORY := Failed], m := t.m) && !t.m.transferCompleted
  }

  const MSYNC_FAILS: Choice := Choice(Outcome(true, false, true), false, false, false)

  lemma CanFail(s: State) returns (t: State)
    requires Init(s) && MEMORY in s.pc && s.m.devices[MEMORY].maxCycles > 0
    ensures Linked(H.Moving(), s, t) && FirstMsyncFails(s, t)
  {
    LinkedToItself<State, Action>(H.Moving(), s);
    var u := FirstStep(s);
    LinkedOn(H.Moving(), s, s, Thread(MEMORY, MSYNC_FAILS), u);
    t := SecondStep(s, u);
    LinkedOn(H.Moving(), s, u, Thread(MEMORY, MSYNC_FAILS), t);
  }

  lemma FirstStep(s: State) returns (u: State)
    requires Init(s) && MEMORY in s.pc && s.m.devices[MEMORY].maxCycles > 0
    ensures H.Moving()(s, Thread(MEMORY, MSYNC_FAILS), u) && WellFormed(u)
    ensures u == s.(pc := s.pc[MEMORY := Msyncing], m := u.m) && !u.m.transferCompleted
  {
    var c := MSYNC_FAILS;
    u := StepPre(s, MEMORY, c);
    assert StepThread(s, MEMORY, c) == u;
    H.MoveOf(s, MEMORY, c);
    InitSound(s);
    ActionSound(s, Thread(MEMORY, c));
  }

  lemma SecondStep(s: State, u: State) returns (t: State)
    requires WellFormed(u) && MEMORY in s.pc && u == s.(pc := s.pc[MEMORY := Msyncing], m := u.m)
    requires !u.m.transferCompleted
    ensures H.Moving()(u, Thread(MEMORY, MSYNC_FAILS), t) && FirstMsyncFails(s, t)
  {
    t := StepPre(u, MEMORY, MSYNC_FAILS);
    assert StepThread(u, MEMORY, MSYNC_FAILS) == t;
    H.MoveOf(u, MEMORY, MSYNC_FAILS);
    assert t.pc == s.pc[MEMORY := Failed];
  }

  lemma FailsAndReturns(origins: seq<Origin>, c: seq<Peer>, i: nat, s: State) returns (d: seq<Peer>, t: State)
    requires Possible(origins, c, MigrateTo(i, s)) && i < |c| == |origins| && Current(c[i]) && !Handed(c[i])
    requires MEMORY in s.pc && s.m.devices[MEMORY].maxCycles > 0
    ensures FirstMsyncFails(s, t) && d == c[i := Done(c[i], s, t)]
    ensures Linked(Lawful(origins), Next(origins, c, MigrateTo(i, s)), d)
  {
    var lawful, c1 := Lawful(origins), Next(origins, c, MigrateTo(i, s));
    t := CanFail(s);
    StepsShow(origins, c1, i, s, t);
    var c2 := c[i := Migrated(c[i], s, t)];
    assert c1[i := Stepped(c1[i], |c[i].migrations|, t)] == c2;
    assert t.pc[MEMORY].Failed?;
    d := c[i := Done(c[i], s, t)];
    CallReturns(origins, c, i, s, t);
    LinkedJoins(lawful, c1, c2, d);
  }

  lemma DoneKeeps(p: Peer, s: State, t: State)
    requires !Handed(p) && Current(p) && FirstMsyncFails(s, t) && s.running == p.up
    ensures var q := Done(p, s, t);
            && !Handed(q) && Current(q) && !q.calling && q.stage == p.stage && q.up == p.up
            && |q.migrations| == |p.migrations| + 1 && q.migrations[|p.migrations|] == t
  {
    var q := Done(p, s, t);
    forall k | 0 <= k < |q.migrations| ensures !q.migrations[k].m.transferCompleted {
      assert q.migrations[k].m == (if k < |p.migrations| then p.migrations[k] else t).m;
    }
    assert Seen(t, t.running) == t;
  }

  /** Such histories are among those above: a migration fails at once and returns, the next one runs to its end while
      the loops of the first are where they were, and its destination is resumed. Nobody breaks the rule. */
  lemma RetryAfterError(origins: seq<Origin>, c: seq<Peer>, i: nat, s: State, r: State, j: nat) returns (d: seq<Peer>)
    requires Possible(origins, c, MigrateTo(i, s)) && i < |c| == |origins| && Current(c[i]) && !Handed(c[i])
    requires MEMORY in s.pc && s.m.devices[MEMORY].maxCycles > 0 && Init(r) && r.running == c[i].up
    requires j < |c| && i != j && c[j] == FRESH && origins[j] == From(i, |c[i].migrations| + 1)
    ensures Linked(Lawful(origins), Next(origins, c, MigrateTo(i, s)), d) && |d| == |c|
    ensures d[j] == RESUMED && !d[i].up && |d[i].migrations| == |c[i].migrations| + 2
    ensures d[i].migrations[|c[i].migrations|].pc == s.pc[MEMORY := Failed]
  {
    var c2, t := FailsAndReturns(origins, c, i, s);
    DoneKeeps(c[i], s, t);
    d := NextWorks(origins, Next(origins, c, MigrateTo(i, s)), c2, i, r, j);
  }

  lemma NextWorks(origins: seq<Origin>, c1: seq<Peer>, c2: seq<Peer>, i: nat, r: State, j: nat) returns (d: seq<Peer>)
    requires Linked(Lawful(origins), c1, c2) && i < |c2| == |origins| && Current(c2[i]) && !Handed(c2[i])
    requires c2[i].stage == Returned && !c2[i].calling && Init(r) && r.running == c2[i].up
    requires j < |c2| && i != j && c2[j] == FRESH && origins[j] == From(i, |c2[i].migrations|)
    ensures Linked(Lawful(origins), c1, d) && |d| == |c2| && d[j] == RESUMED && Left(c2[i], d[i])
  {
    var c3 := Next(origins, c2, MigrateTo(i, r));
    LinkedOn(Lawful(origins), c1, c2, MigrateTo(i, r), c3);
    d := HandsTo(origins, c2, i, r, j);
    LinkedJoins(Lawful(origins), c1, c3, d);
  }

  lemma RunningDoesNotMatter(s: State, running: bool)
    requires Init(s)
    ensures Init(s.(running := running))
  {
  }

  /** A breach and what lawfully follows it are moves of a run. */
  lemma MovesOn(origins: seq<Origin>, c0: seq<Peer>, c: seq<Peer>, e: Event, d: seq<Peer>)
    requires Linked(Moves(origins), c0, c) && Possible(origins, c, e)
    requires Linked(Lawful(origins), Next(origins, c, e), d)
    ensures Linked(Moves(origins), c0, d)
  {
    var moves, lawful, f := Moves(origins), Lawful(origins), (x: seq<Peer>) => x;
    LinkedOn(moves, c0, c, e, Next(origins, c, e));
    forall x: seq<Peer>, a: Event, y: seq<Peer> | lawful(x, a, y) ensures OneStep(moves, f(x), f(y)) {
      assert moves(f(x), a, f(y));
    }
    LinkedThrough(lawful, moves, f, Next(origins, c, e), d, c0);
  }

  lemma LinkedIsRun(origins: seq<Origin>, c0: seq<Peer>, d: seq<Peer>) returns (cs: seq<seq<Peer>>, es: seq<Event>)
    requires Tree(origins) && Start(origins, c0) && Linked(Moves(origins), c0, d)
    ensures TreeRun(origins, cs, es) && cs[|es|] == d
  {
    cs, es :| Chain(Moves(origins), cs, es, c0, d);
    forall k | 0 <= k < |es| ensures Possible(origins, cs[k], es[k]) && cs[k + 1] == Next(origins, cs[k], es[k]) {
      assert Moves(origins)(cs[k], es[k], cs[k + 1]);
    }
  }

  lemma RootResumed(origins: seq<Origin>, c0: seq<Peer>) returns (c: seq<Peer>)
    requires origins == [Files, From(0, 0), From(0, 1)] && c0 == [FRESH, FRESH, FRESH]
    ensures c == [Peer(Returned, true, false, [], 0), FRESH, FRESH] && Linked(Moves(origins), c0, c)
  {
    var moves := Moves(origins);
    var c1 := Next(origins, c0, MigrateFromEnds(0, true));
    c := Next(origins, c1, Resume(0, true));
    LinkedToItself<seq<Peer>, Event>(moves, c0);
    LinkedOn(moves, c0, c0, MigrateFromEnds(0, true), c1);
    LinkedOn(moves, c0, c1, Resume(0, true), c);
  }

  lemma MovesTo(origins: seq<Origin>, c0: seq<Peer>, c: seq<Peer>, i: nat, s: State, j: nat) returns (d: seq<Peer>)
    requires Linked(Moves(origins), c0, c) && Possible(origins, c, MigrateTo(i, s))
    requires i < |c| == |origins| && j < |c| && i != j && c[j] == FRESH && origins[j] == From(i, |c[i].migrations|)
    requires Current(c[i])
    ensures Linked(Moves(origins), c0, d) && |d| == |c| && d[j] == RESUMED && Left(c[i], d[i])
    ensures forall x | 0 <= x < |c| && x != i && x != j :: d[x] == c[x]
  {
    d := HandsTo(origins, c, i, s, j);
    MovesOn(origins, c0, c, MigrateTo(i, s), d);
  }

  lemma CanMigrate(origins: seq<Origin>, c: seq<Peer>, i: nat, s: State)
    requires i < |c| == |origins| && c[i].stage == Returned && !c[i].calling && Init(s) && s.running == c[i].up
    ensures Possible(origins, c, MigrateTo(i, s))
  {
  }

  lemma FirstDestination(origins: seq<Origin>, c0: seq<Peer>, s: State) returns (d: seq<Peer>)
    requires origins == [Files, From(0, 0), From(0, 1)] && c0 == [FRESH, FRESH, FRESH] && Init(s) && s.running
    ensures Linked(Moves(origins), c0, d) && |d| == 3 && d[1] == RESUMED && d[2] == FRESH
    ensures Left(Peer(Returned, true, false, [], 0), d[0])
  {
    var c := RootResumed(origins, c0);
    CanMigrate(origins, c, 0, s);
    d := MovesTo(origins, c0, c, 0, s, 1);
  }

  lemma SecondDestination(origins: seq<Origin>, c0: seq<Peer>, d: seq<Peer>, s: State) returns (e: seq<Peer>)
    requires origins == [Files, From(0, 0), From(0, 1)] && Init(s) && !s.running
    requires Linked(Moves(origins), c0, d) && |d| == 3 && d[1] == RESUMED && d[2] == FRESH
    requires Left(Peer(Returned, true, false, [], 0), d[0])
    ensures Linked(Moves(origins), c0, e) && |e| == 3 && e[1] == RESUMED && e[2] == RESUMED
  {
    CanMigrate(origins, d, 0, s);
    e := MovesTo(origins, c0, d, 0, s, 2);
  }

  lemma BothDestinations(origins: seq<Origin>, c0: seq<Peer>) returns (e: seq<Peer>)
    requires origins == [Files, From(0, 0), From(0, 1)] && c0 == [FRESH, FRESH, FRESH]
    ensures Linked(Moves(origins), c0, e) && |e| == 3 && e[1] == RESUMED && e[2] == RESUMED
  {
    var s := H.SomeStart();
    RunningDoesNotMatter(s, false);
    var d := FirstDestination(origins, c0, s);
    e := SecondDestination(origins, c0, d, s.(running := false));
  }

  lemma ThreePeers(origins: seq<Origin>, c0: seq<Peer>)
    requires origins == [Files, From(0, 0), From(0, 1)] && c0 == [FRESH, FRESH, FRESH]
    ensures Tree(origins) && Start(origins, c0)
  {
  }

  /** A run that breaks the rule once, by migrating away a second time after authority has passed, and ends with both
      destinations returned and resumed. */
  lemma TwoDestinations() returns (origins: seq<Origin>, cs: seq<seq<Peer>>, es: seq<Event>)
    ensures TreeRun(origins, cs, es) && |cs[|es|]| == 3
    ensures cs[|es|][1] == RESUMED && cs[|es|][2] == RESUMED
  {
    origins := [Files, From(0, 0), From(0, 1)];
    var c0 := [FRESH, FRESH, FRESH];
    ThreePeers(origins, c0);
    var e := BothDestinations(origins, c0);
    cs, es := LinkedIsRun(origins, c0, e);
  }
}
