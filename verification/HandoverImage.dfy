/** The guest's image over a run, in terms of the actions alone: every block is what the guest wrote to it last, and
    that is what the destination ends up with. */
module HandoverImage {
  import opened Handover
  import opened HandoverSystem
  import opened HandoverInvariants
  import opened HandoverTheorems
  import opened Chains

  // ----- what the guest wrote -----

  /** The block that an action writes, if it writes block `b` of device `n`. */
  function Wrote(n: Name, b: nat): Action -> Option<Block> {
    (a: Action) => if a.GuestWrite? && a.n == n && a.b == b then Some(a.v) else None
  }

  /** The last value written to the block before step `i`, or what it held at the start. */
  function LastWritten(acts: seq<Action>, n: Name, b: nat, i: nat, first: Block): Block
    requires i <= |acts|
  {
    Latest(Wrote(n, b), acts, i, first)
  }

  /** That is: the value of the last GuestWrite to it, whatever the other actions are. */
  lemma LastWrittenIsLast(acts: seq<Action>, n: Name, b: nat, i: nat, first: Block)
    requires i <= |acts|
    ensures (forall l | 0 <= l < i :: !(acts[l].GuestWrite? && acts[l].n == n && acts[l].b == b)) ==>
              LastWritten(acts, n, b, i, first) == first
    ensures forall j: nat, v: Block, seen: bool
              | j < i && acts[j] == GuestWrite(n, b, v, seen)
                && (forall l | j < l < i :: !(acts[l].GuestWrite? && acts[l].n == n && acts[l].b == b)) ::
              LastWritten(acts, n, b, i, first) == v
  {
    LatestIsLast(Wrote(n, b), acts, i, first);
    forall j: nat, v: Block, seen: bool
      | j < i && acts[j] == GuestWrite(n, b, v, seen)
        && (forall l | j < l < i :: !(acts[l].GuestWrite? && acts[l].n == n && acts[l].b == b))
      ensures LastWritten(acts, n, b, i, first) == v
    {
      assert LastGiver(Wrote(n, b), acts, j, i);
    }
  }

  lemma ThreadKeepsGuests(s: State, k: Name, c: Choice)
    requires Inv(s) && CanStep(s, k)
    ensures StepThread(s, k, c).store.Keys == s.store.Keys
    ensures forall n | n in s.store :: StepThread(s, k, c).store[n].guest == s.store[n].guest
  {
    assert LocksKept(s, k) && ThreadKept(s, k);
    ThreadEffect(s, k, c);
    GuestUntouched(s, StepThread(s, k, c), k, c);
  }

  ghost predicate SizeIs(s: State, n: Name, size: nat) {
    n in s.store && |s.store[n].guest| == size
  }

  /** Block `b` of device `n` as the guest has it. */
  function GuestBlock(n: Name, b: nat): State -> Block {
    (s: State) => if n in s.store && b < |s.store[n].guest| then s.store[n].guest[b] else []
  }

  /** What one action does to one block of the guest. */
  ghost predicate Writes(s: State, a: Action, t: State, n: Name, b: nat, size: nat) {
    && SizeIs(t, n, size)
    && (b < size ==> GuestBlock(n, b)(t)
                     == if Wrote(n, b)(a).Some? then Wrote(n, b)(a).value else GuestBlock(n, b)(s))
  }

  lemma GuestWriteWrites(s: State, a: Action, n: Name, b: nat, size: nat)
    requires Enabled(s, a) && a.GuestWrite? && SizeIs(s, n, size)
    ensures Writes(s, a, Do(s, a), n, b, size)
  {
    assert Do(s, a) == SetStore(s, a.n, Written(a.n, s.store[a.n], a.b, a.v, a.seen));
  }

  lemma OthersLeaveGuests(s: State, a: Action, n: Name)
    requires Enabled(s, a) && !a.Thread? && !a.GuestWrite? && n in s.store
    ensures n in Do(s, a).store && Do(s, a).store[n].guest == s.store[n].guest
  {
  }

  lemma SameGuestsWrite(s: State, a: Action, t: State, n: Name, b: nat, size: nat)
    requires SizeIs(s, n, size) && !a.GuestWrite? && n in t.store && t.store[n].guest == s.store[n].guest
    ensures Writes(s, a, t, n, b, size)
  {
  }

  lemma ActionWrites(s: State, a: Action, n: Name, b: nat, size: nat)
    requires Inv(s) && Enabled(s, a) && SizeIs(s, n, size)
    ensures Writes(s, a, Do(s, a), n, b, size)
  {
    if a.Thread? {
      ThreadKeepsGuests(s, a.n, a.choice);
      SameGuestsWrite(s, a, StepThread(s, a.n, a.choice), n, b, size);
    } else if a.GuestWrite? {
      GuestWriteWrites(s, a, n, b, size);
    } else {
      OthersLeaveGuests(s, a, n);
      SameGuestsWrite(s, a, Do(s, a), n, b, size);
    }
  }

  lemma NextWrites(ss: seq<State>, acts: seq<Action>, k: nat, n: Name, b: nat, size: nat)
    requires Run(ss, acts) && k < |acts| && SizeIs(ss[k], n, size)
    ensures Writes(ss[k], acts[k], ss[k + 1], n, b, size)
  {
    RunKeepsInv(ss, acts, k);
    RunStep(ss, acts, k);
    ActionWrites(ss[k], acts[k], n, b, size);
  }

  lemma RunKeepsSize(ss: seq<State>, acts: seq<Action>, i: nat, n: Name)
    requires Run(ss, acts) && i < |ss| && n in ss[0].store
    ensures SizeIs(ss[i], n, |ss[0].store[n].guest|)
  {
    var size := |ss[0].store[n].guest|;
    var p := (s: State) => SizeIs(s, n, size);
    forall k | 0 <= k < |ss| - 1 && p(ss[k]) ensures p(ss[k + 1]) {
      NextWrites(ss, acts, k, n, 0, size);
    }
    Stepwise(ss, p, 0, i);
  }

  /** In every state of every run each block of each device is what the guest wrote to it last. */
  lemma GuestIsWritten(ss: seq<State>, acts: seq<Action>, i: nat, n: Name, b: nat)
    requires Run(ss, acts) && i < |ss| && n in ss[0].store && b < |ss[0].store[n].guest|
    ensures n in ss[i].store && |ss[i].store[n].guest| == |ss[0].store[n].guest|
    ensures ss[i].store[n].guest[b] == LastWritten(acts, n, b, i, ss[0].store[n].guest[b])
  {
    RunKeepsSize(ss, acts, i, n);
    BlockIsWritten(ss, acts, i, n, b);
  }

  lemma BlockIsWritten(ss: seq<State>, acts: seq<Action>, i: nat, n: Name, b: nat)
    requires Run(ss, acts) && i < |ss| && n in ss[0].store && b < |ss[0].store[n].guest|
    ensures GuestBlock(n, b)(ss[i]) == LastWritten(acts, n, b, i, GuestBlock(n, b)(ss[0]))
  {
    var gives, value := Wrote(n, b), GuestBlock(n, b);
    forall k | 0 <= k < i
      ensures value(ss[k + 1]) == if gives(acts[k]).Some? then gives(acts[k]).value else value(ss[k])
    {
      RunKeepsSize(ss, acts, k, n);
      NextWrites(ss, acts, k, n, b, |ss[0].store[n].guest|);
    }
    LatestStands(gives, value, ss, acts, i);
  }

  /** Put together: when the copies announced before the transfer have drained, in any later state, every block of every
      device of the destination is what the guest wrote to it last. Nothing was written after the transfer. */
  lemma DestinationGetsImage(ss: seq<State>, acts: seq<Action>, i: nat, j: nat, n: Name)
    requires Run(ss, acts) && i <= j < |ss| && ss[i].m.transferCompleted
    requires n in ss[i].store && n in ss[j].store && Drained(ss[j].store[n])
    ensures ss[j].store[n].dst == ss[i].store[n].guest
    ensures n in ss[0].store && |ss[j].store[n].dst| == |ss[0].store[n].guest|
    ensures forall b: nat | b < |ss[j].store[n].dst| ::
              ss[j].store[n].dst[b] == LastWritten(acts, n, b, i, ss[0].store[n].guest[b])
    ensures forall l: nat | i <= l < j :: !acts[l].GuestWrite?
  {
    HandoverPreservesImage(ss, acts, i);
    StoppedImageStands(ss, acts, i, j);
    RunIsLater(ss, acts, i, j);
    HandoverPreservesImage(ss, acts, j);
    RunIsLater(ss, acts, 0, i);
    RunKeepsSize(ss, acts, i, n);
    forall b: nat | b < |ss[j].store[n].dst|
      ensures ss[j].store[n].dst[b] == LastWritten(acts, n, b, i, ss[0].store[n].guest[b])
    {
      GuestIsWritten(ss, acts, i, n, b);
    }
    forall l: nat | i <= l < j ensures !acts[l].GuestWrite? {
      RunIsLater(ss, acts, i, l);
      RunStep(ss, acts, l);
    }
  }
}
