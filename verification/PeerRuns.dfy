/** Which peers run the machine, in terms of the events of a history. */
module PeerRuns {
  import opened HandoverSystem
  import opened Chains
  import opened Migration
  import opened PeerTree

  /** The event leaves peer `i` without a running machine: a stop, or a step of one of its migrations that suspends. */
  predicate Halts(c: seq<Peer>, e: Event, i: nat) {
    && e.i == i < |c|
    && match e
       case Stop(_) => true
       case Step(_, k, a) =>
         k < |c[i].migrations| && Enabled(c[i].migrations[k], a) && !Do(c[i].migrations[k], a).running
       case _ => false
  }

  predicate Starts(e: Event, i: nat) {
    e.Resume? && e.i == i && e.works
  }

  /** Event `r` resumed the peer, and none since has stopped it. */
  ghost predicate ResumedAt(cs: seq<seq<Peer>>, es: seq<Event>, r: nat, i: nat, n: nat)
    requires n <= |es| && n < |cs|
  {
    r < n && Starts(es[r], i) && forall l | r < l < n :: !Halts(cs[l], es[l], i)
  }

  ghost predicate StillResumed(cs: seq<seq<Peer>>, es: seq<Event>, i: nat, n: nat)
    requires n <= |es| && n < |cs|
  {
    exists r: nat :: ResumedAt(cs, es, r, i, n)
  }

  lemma OneEvent(origins: seq<Origin>, c: seq<Peer>, e: Event, i: nat)
    requires Possible(origins, c, e) && i < |c|
    requires e.Step? && Do(c[e.i].migrations[e.k], e.a).running ==> c[e.i].up
    ensures i < |Next(origins, c, e)|
    ensures Next(origins, c, e)[i].up <==> !Halts(c, e, i) && (c[i].up || Starts(e, i))
  {
  }

  lemma StepsKeepDown(origins: seq<Origin>, c: seq<Peer>, e: Event)
    requires TreeKept(origins, c) && Possible(origins, c, e) && e.Step?
    ensures Do(c[e.i].migrations[e.k], e.a).running ==> c[e.i].up
  {
    ActionKept(c[e.i], e.k, e.a);
  }

  /** The peer runs the machine exactly if some event resumed it and none has stopped it since. */
  ghost predicate Told(cs: seq<seq<Peer>>, es: seq<Event>, i: nat, n: nat) {
    && n <= |es| && n < |cs| && i < |cs[n]|
    && (cs[n][i].up <==> StillResumed(cs, es, i, n))
  }

  lemma NextTold(origins: seq<Origin>, cs: seq<seq<Peer>>, es: seq<Event>, i: nat, n: nat)
    requires TreeRun(origins, cs, es) && n < |es| && Told(cs, es, i, n)
    ensures Told(cs, es, i, n + 1)
  {
    RunKeepsTree(origins, cs, es, n);
    TreeStep(origins, cs, es, n);
    if es[n].Step? {
      StepsKeepDown(origins, cs[n], es[n]);
    }
    OneEvent(origins, cs[n], es[n], i);
    LaterTold(cs, es, i, n);
  }

  lemma LaterTold(cs: seq<seq<Peer>>, es: seq<Event>, i: nat, n: nat)
    requires n < |es| && n + 1 < |cs|
    ensures StillResumed(cs, es, i, n + 1) <==>
            Starts(es[n], i) || (!Halts(cs[n], es[n], i) && StillResumed(cs, es, i, n))
  {
    if Starts(es[n], i) {
      assert ResumedAt(cs, es, n, i, n + 1);
    } else if !Halts(cs[n], es[n], i) {
      if r: nat :| ResumedAt(cs, es, r, i, n) {
        assert ResumedAt(cs, es, r, i, n + 1);
      }
      var m := n + 1;
      if r: nat :| ResumedAt(cs, es, r, i, m) {
        assert ResumedAt(cs, es, r, i, n);
      }
    }
  }

  /** In every state of every history a peer runs the machine exactly if it was resumed, and since then neither stopped
      nor suspended by one of its migrations: no other event starts or stops it. */
  lemma RunsSinceResume(origins: seq<Origin>, cs: seq<seq<Peer>>, es: seq<Event>, i: nat, n: nat)
    requires TreeRun(origins, cs, es) && n < |cs| && i < |origins|
    ensures i < |cs[n]| && (cs[n][i].up <==> StillResumed(cs, es, i, n))
  {
    ghost var told: nat -> bool := (k: nat) => Told(cs, es, i, k);
    forall k: nat | k < n && told(k) ensures told(k + 1) {
      NextTold(origins, cs, es, i, k);
    }
    UpTo(told, n);
  }
}
