/** Whole runs of the grabber: grabs at any time while the guest runs, started by the ticker or by FlushData, then the
    last one made by Suspend with the guest stopped (runtime.go:243-288, 318-345, 466-475, 521-544). They follow the
    provider and the writeback tracker, which nobody fetches before the flush; the trackers that a migration fetches
    between grabs are in DirectTransfer and FailsafeTransfer. */
module MemoryLifecycle {
  import opened MemoryImage
  import opened MemoryGrab
  import opened DirectMemory
  import Chains

  /** What the guest does up to one tick, and during the grab the tick starts. */
  datatype Period = Period(before: seq<Store>, during: Guest)

  // ----- the two kinds of grab, seen by a tracker -----

  /** On mapped bytes the provider is `base`, or the tracker knows. */
  ghost predicate Held(rs: seq<Region>, base: seq<Byte>, prov: seq<Byte>, t: Tracker) {
    && TrackerFits(t) && |base| == |prov|
    && forall x: nat | x < |base| && Shown(rs, x) :: base[x] == prov[x] || DirtyAt(t, x)
  }

  /** Where memory is not the provider, a full comparison marks; elsewhere the provider stays as it was. */
  lemma ComparisonKeepsHeld(g: MemoryGrabber, base: seq<Byte>, prov: seq<Byte>, memory: seq<Byte>, t: Tracker,
                            blockSize: nat)
    requires blockSize > 0 && Mapped(g.regions, |memory|, |prov|) && Held(g.regions, base, prov, t) && t.Tracking?
    ensures
      var u := MarkAll(t, AllChunks(prov, memory, g.regions, blockSize));
      && Held(g.regions, base, prov, u)
      && Held(g.regions, base, Overlay(prov, memory, g.regions), u)
      && Covers(g, base, memory, {}, u)
  {
    var view, marks := Overlay(prov, memory, g.regions), AllChunks(prov, memory, g.regions, blockSize);
    forall x: nat | x < |base| && Shown(g.regions, x)
      ensures (base[x] == view[x] && base[x] == prov[x]) || DirtyAt(MarkAll(t, marks), x)
    {
      ByteCompared(g.regions, base, prov, memory, t, blockSize, x);
    }
    forall i: nat, a: nat | In(g.regions, i, a) && !DirtyAt(MarkAll(t, marks), Off(g.regions, i, a))
      ensures Agrees(g, base, memory, i, a)
    {
      var x := Off(g.regions, i, a);
      assert Shows(g.regions[i], x) && Shown(g.regions, x);
      OverlayShown(prov, memory, g.regions, i, x);
    }
  }

  lemma ByteCompared(rs: seq<Region>, base: seq<Byte>, prov: seq<Byte>, memory: seq<Byte>, t: Tracker, blockSize: nat,
                     x: nat)
    requires blockSize > 0 && Mapped(rs, |memory|, |prov|) && Held(rs, base, prov, t) && t.Tracking?
    requires x < |base| && Shown(rs, x)
    ensures base[x] == prov[x] == Overlay(prov, memory, rs)[x] ||
            DirtyAt(MarkAll(t, AllChunks(prov, memory, rs, blockSize)), x)
  {
    if prov[x] != Overlay(prov, memory, rs)[x] || DirtyAt(t, x) {
      ComparedByte(prov, memory, rs, blockSize, t, x);
    }
  }

  /** The failsafe loop with both settings on is exact: memory on every mapped offset and nothing else changed, every
      differing byte in a dirty block, and every newly dirty block touched by a chunk that held a difference. */
  lemma FailsafeIsExact(prov: seq<Byte>, memory: seq<Byte>, rs: seq<Region>, blockSize: nat, t: Tracker)
    requires blockSize > 0 && Mapped(rs, |memory|, |prov|) && TrackerFits(t) && t.Tracking?
    ensures IsImage(Overlay(prov, memory, rs), prov, memory, rs)
    ensures forall i, x: nat | 0 <= i < |rs| && Differs(prov, memory, rs[i], x) ::
              DirtyAt(MarkAll(t, AllChunks(prov, memory, rs, blockSize)), x)
    ensures var u := MarkAll(t, AllChunks(prov, memory, rs, blockSize));
            && u.Tracking? && t.blocks <= u.blocks
            && forall b: nat | b in u.blocks && b !in t.blocks :: NewlyDirty(prov, memory, rs, blockSize, t, b)
  {
    var marks := AllChunks(prov, memory, rs, blockSize);
    OverlayIsImage(prov, memory, rs);
    AllChunksAreExact(prov, memory, rs, blockSize);
    MarkAllCovers(t, marks);
    forall i, x: nat | 0 <= i < |rs| && Differs(prov, memory, rs[i], x) ensures DirtyAt(MarkAll(t, marks), x) {
      FoundIsDirty(t, marks, x);
    }
    forall b: nat | b in MarkAll(t, marks).blocks && b !in t.blocks
      ensures NewlyDirty(prov, memory, rs, blockSize, t, b)
    {
      var i, x := MarkAllOnly(t, marks, b);
      assert Justified(marks[i], prov, memory, rs) && Touches(marks[i], t, b, x);
    }
  }

  predicate Touches(c: Chunk, t: Tracker, b: nat, x: nat) {
    t.Tracking? && t.blockSize > 0 && Within(c, x) && x / t.blockSize == b
  }

  ghost predicate NewlyDirty(prov: seq<Byte>, memory: seq<Byte>, rs: seq<Region>, blockSize: nat, t: Tracker, b: nat)
    requires blockSize > 0 && Mapped(rs, |memory|, |prov|)
  {
    exists c, x: nat ::
      c in AllChunks(prov, memory, rs, blockSize) && Justified(c, prov, memory, rs) && Touches(c, t, b, x)
  }

  /** The overlay does not depend on what the mapped bytes were. */
  lemma SameOutside(p: seq<Byte>, q: seq<Byte>, memory: seq<Byte>, rs: seq<Region>)
    requires |p| == |q| && Mapped(rs, |memory|, |p|)
    requires forall x: nat | x < |p| && (forall i :: 0 <= i < |rs| ==> !Shows(rs[i], x)) :: p[x] == q[x]
    ensures Overlay(p, memory, rs) == Overlay(q, memory, rs)
  {
    OverlayIsImage(p, memory, rs);
    OverlayIsImage(q, memory, rs);
    ImageIsUnique(Overlay(p, memory, rs), Overlay(q, memory, rs), q, memory, rs);
  }

  // ----- a run -----

  /** What the writeback tracker promises between grabs, in either mode. */
  ghost predicate Tracked(g: MemoryGrabber, failsafe: bool, base: seq<Byte>)
    requires g.Valid()
    reads g, g.mem, g.prov
  {
    g.updateDirty && g.trackers.writeback.Tracking? ==>
      && |base| == g.prov.Length
      && if failsafe then Held(g.regions, base, g.prov[..], g.trackers.writeback)
         else Covers(g, base, g.mem[..], g.softPages, g.trackers.writeback)
  }

  /** And with the guest stopped, after a grab. */
  ghost predicate Complete(g: MemoryGrabber, base: seq<Byte>)
    requires g.Valid()
    reads g, g.mem
  {
    g.updateDirty && g.trackers.writeback.Tracking? ==> Covers(g, base, g.mem[..], {}, g.trackers.writeback)
  }

  lemma WritebackMarked(ts: Trackers, marks: seq<Chunk>)
    requires TrackersFit(ts)
    ensures MarkEach(ts, marks).writeback == MarkAll(ts.writeback, marks)
    ensures MarkEach(ts, marks).writeback.Tracking? <==> ts.writeback.Tracking?
  {
    if ts.writeback.Tracking? {
      MarkAllCovers(ts.writeback, marks);
    } else {
      AbsentStays(marks);
    }
  }

  lemma {:induction false} AbsentStays(marks: seq<Chunk>)
    ensures MarkAll(Absent, marks) == Absent
    decreases |marks|
  {
    if marks != [] {
      AbsentStays(marks[..|marks| - 1]);
    }
  }

  /** grabMemoryChanges: the mode is a setting. */
  method GrabMemoryChanges(g: MemoryGrabber, failsafe: bool, blockSize: nat, guest: Guest, ghost base: seq<Byte>)
    requires g.Valid() && blockSize > 0
    requires g.updateMemory && !failsafe ==> g.Covered({})
    requires Tracked(g, failsafe, base)
    modifies g, g.mem, g.prov
    ensures g.Valid() && (g.trackers.writeback.Tracking? <==> old(g.trackers.writeback.Tracking?))
    ensures g.updateMemory && !failsafe ==> g.Covered({})
    ensures Tracked(g, failsafe, base)
    ensures Outside(g.regions, g.prov[..], old(g.prov[..]))
    ensures !g.updateMemory ==> g.prov[..] == old(g.prov[..])
    ensures failsafe ==> g.mem[..] == old(g.mem[..])
    ensures Stopped(guest) ==> g.softPages == {} && g.mem[..] == old(g.mem[..]) && Complete(g, base)
    ensures Stopped(guest) && g.updateMemory ==> g.prov[..] == Overlay(old(g.prov[..]), g.mem[..], g.regions)
  {
    if failsafe {
      CompareTracked(g, blockSize, base);
    } else {
      GrabTracked(g, guest, base);
    }
  }

  method CompareTracked(g: MemoryGrabber, blockSize: nat, ghost base: seq<Byte>)
    requires g.Valid() && blockSize > 0 && Tracked(g, true, base)
    modifies g, g.prov
    ensures g.Valid() && (g.trackers.writeback.Tracking? <==> old(g.trackers.writeback.Tracking?))
    ensures g.softPages == {} && Tracked(g, true, base) && Complete(g, base)
    ensures g.prov[..] == if g.updateMemory then Overlay(old(g.prov[..]), g.mem[..], g.regions) else old(g.prov[..])
    ensures Outside(g.regions, g.prov[..], old(g.prov[..]))
  {
    ghost var p, m, ts := g.prov[..], g.mem[..], g.trackers;
    ghost var marks := g.GrabFailsafe(blockSize);
    assert g.mem[..] == m;
    WritebackMarked(ts, marks);
    if g.updateDirty && ts.writeback.Tracking? {
      ComparisonKeepsHeld(g, base, p, m, ts.writeback, blockSize);
    }
    OverlayIsImage(p, m, g.regions);
  }

  method GrabTracked(g: MemoryGrabber, guest: Guest, ghost base: seq<Byte>)
    requires g.Valid() && (g.updateMemory ==> g.Covered({})) && Tracked(g, false, base)
    modifies g, g.mem, g.prov
    ensures g.Valid() && (g.trackers.writeback.Tracking? <==> old(g.trackers.writeback.Tracking?))
    ensures (g.updateMemory ==> g.Covered({})) && Tracked(g, false, base)
    ensures Outside(g.regions, g.prov[..], old(g.prov[..]))
    ensures !g.updateMemory ==> g.prov[..] == old(g.prov[..])
    ensures Stopped(guest) ==> g.softPages == {} && g.mem[..] == old(g.mem[..])
    ensures Stopped(guest) && g.updateMemory ==> g.prov[..] == Overlay(old(g.prov[..]), g.mem[..], g.regions)
  {
    ghost var m, soft, ts := g.mem[..], g.softPages, g.trackers;
    ghost var ranges := g.GrabSoftDirty(guest);
    WritebackMarked(ts, ranges);
    if g.updateDirty && ts.writeback.Tracking? {
      MarkingKeepsCover(g, base, m, g.mem[..], soft, g.softPages, ts.writeback, ranges);
    }
  }

  /** What the guest stores between the grabs. */
  function Stores(periods: seq<Period>): seq<Store> {
    if periods == [] then [] else Stores(periods[..|periods| - 1]) + periods[|periods| - 1].before
  }

  /** Every byte is the last one stored there. */
  ghost predicate IsStored(now: seq<Byte>, before: seq<Byte>, stores: seq<Store>) {
    && |now| == |before|
    && forall a: nat | a < |now| :: now[a] == Chains.Latest(StoredAt(a), stores, |stores|, before[a])
  }

  lemma StoredOn(m: seq<Byte>, n: seq<Byte>, before: seq<Byte>, a: seq<Store>, b: seq<Store>)
    requires IsStored(m, before, a) && IsStored(n, m, b)
    ensures IsStored(n, before, a + b)
  {
    forall x: nat | x < |n| ensures n[x] == Chains.Latest(StoredAt(x), a + b, |a + b|, before[x]) {
      Chains.LatestJoins(StoredAt(x), a, b, |b|, before[x]);
    }
  }

  lemma LastStores(now: seq<Byte>, before: seq<Byte>, stores: seq<Store>, k: nat)
    requires IsStored(now, before, stores) && k < |stores| && stores[k].addr < |now|
    requires forall l | k < l < |stores| :: stores[l].addr != stores[k].addr
    ensures now[stores[k].addr] == stores[k].value
  {
    var a := stores[k].addr;
    Chains.LatestIsLast(StoredAt(a), stores, |stores|, before[a]);
    assert Chains.LastGiver(StoredAt(a), stores, k, |stores|);
  }

  method GuestPeriod(g: MemoryGrabber, stores: seq<Store>, failsafe: bool, ghost base: seq<Byte>)
    requires g.Valid() && Tracked(g, failsafe, base)
    requires g.updateMemory && !failsafe ==> g.Covered({})
    modifies g.mem, g`softPages
    ensures g.Valid() && Tracked(g, failsafe, base)
    ensures g.updateMemory && !failsafe ==> g.Covered({})
    ensures IsStored(g.mem[..], old(g.mem[..]), stores)
  {
    ghost var m, soft, t := g.mem[..], g.softPages, g.trackers.writeback;
    g.GuestRuns(stores);
    if g.updateDirty && t.Tracking? && !failsafe {
      GuestKeepsCover(g, base, m, g.mem[..], soft, g.softPages, t);
    }
  }

  lemma PeriodStored(periods: seq<Period>, k: nat, m: seq<Byte>, n: seq<Byte>, first: seq<Byte>, failsafe: bool)
    requires k < |periods| && IsStored(n, m, periods[k].before)
    requires failsafe ==> IsStored(m, first, Stores(periods[..k]))
    ensures failsafe ==> IsStored(n, first, Stores(periods[..k + 1]))
  {
    assert periods[..k + 1][..k] == periods[..k];
    if failsafe {
      StoredOn(m, n, first, Stores(periods[..k]), periods[k].before);
    }
  }

  /** Grabs at every tick while the guest runs, then the last grab with the guest stopped. The provider ends up with
      guest memory on every mapped byte and is unchanged elsewhere, and `base` becomes guest memory by taking the blocks
      that the writeback tracker has dirty: in either mode, for any ticks and any guest. */
  method GrabUntilSuspended(g: MemoryGrabber, failsafe: bool, blockSize: nat, periods: seq<Period>, last: seq<Store>,
                            ghost base: seq<Byte>)
    requires g.Valid() && blockSize > 0
    requires g.updateMemory && !failsafe ==> g.Covered({})
    requires Tracked(g, failsafe, base)
    modifies g, g.mem, g.prov
    ensures g.Valid() && (g.trackers.writeback.Tracking? <==> old(g.trackers.writeback.Tracking?))
    ensures g.softPages == {}
    ensures failsafe ==> IsStored(g.mem[..], old(g.mem[..]), Stores(periods) + last)
    ensures forall k | 0 <= k < |last| && last[k].addr < g.mem.Length
                       && (forall l | k < l < |last| :: last[l].addr != last[k].addr) ::
              g.mem[last[k].addr] == last[k].value
    ensures g.prov[..] == if g.updateMemory then Overlay(old(g.prov[..]), g.mem[..], g.regions) else old(g.prov[..])
    ensures g.updateDirty && g.trackers.writeback.Tracking? ==>
              && |base| == g.prov.Length
              && Received(base, Overlay(base, g.mem[..], g.regions), g.trackers.writeback)
                 == Overlay(base, g.mem[..], g.regions)
  {
    ghost var before, first := g.prov[..], g.mem[..];
    for k := 0 to |periods|
      invariant g.Valid() && (g.trackers.writeback.Tracking? <==> old(g.trackers.writeback.Tracking?))
      invariant g.updateMemory && !failsafe ==> g.Covered({})
      invariant Tracked(g, failsafe, base)
      invariant Outside(g.regions, g.prov[..], before)
      invariant !g.updateMemory ==> g.prov[..] == before
      invariant failsafe ==> IsStored(g.mem[..], first, Stores(periods[..k]))
    {
      ghost var m := g.mem[..];
      GuestPeriod(g, periods[k].before, failsafe, base);
      PeriodStored(periods, k, m, g.mem[..], first, failsafe);
      GrabMemoryChanges(g, failsafe, blockSize, periods[k].during, base);
    }
    assert periods[..|periods|] == periods;
    ghost var m := g.mem[..];
    GuestPeriod(g, last, failsafe, base);
    ghost var p, now := g.prov[..], g.mem[..];
    GrabMemoryChanges(g, failsafe, blockSize, _ => [], base);
    assert g.mem[..] == now;
    if failsafe {
      StoredOn(m, now, first, Stores(periods), last);
    }
    forall k | 0 <= k < |last| && last[k].addr < g.mem.Length
               && (forall l | k < l < |last| :: last[l].addr != last[k].addr)
      ensures g.mem[last[k].addr] == last[k].value
    {
      LastStores(now, m, last, k);
    }
    SameOutside(p, before, g.mem[..], g.regions);
    if g.updateDirty && g.trackers.writeback.Tracking? {
      ReceiverGetsMemory(g, base, g.mem[..], g.trackers.writeback);
    }
  }

  /** Equal on every byte that no region shows. */
  ghost predicate Outside(rs: seq<Region>, p: seq<Byte>, q: seq<Byte>) {
    && |p| == |q|
    && forall x: nat | x < |p| && (forall i :: 0 <= i < |rs| ==> !Shows(rs[i], x)) :: p[x] == q[x]
  }

  lemma StartsTracked(g: MemoryGrabber, failsafe: bool)
    requires g.Valid() && g.trackers.writeback.Tracking? && Overlay(g.prov[..], g.mem[..], g.regions) == g.prov[..]
    ensures g.Covered({}) && Tracked(g, failsafe, g.prov[..])
  {
    var p, m := g.prov[..], g.mem[..];
    forall i: nat, a: nat | In(g.regions, i, a) ensures Agrees(g, p, m, i, a) {
      assert Shows(g.regions[i], Off(g.regions, i, a));
      OverlayShown(p, m, g.regions, i, Off(g.regions, i, a));
    }
    forall i: nat, a: nat {:trigger In(g.regions, i, a)} | In(g.regions, i, a)
      ensures g.prov[Off(g.regions, i, a)] == g.mem[a]
    {
      assert Agrees(g, p, m, i, a);
    }
  }

  /** Flushing after a run, whether or not the grabs already copied. */
  lemma FlushedImage(rs: seq<Region>, before: seq<Byte>, p: seq<Byte>, memory: seq<Byte>, t: Tracker)
    requires TrackerFits(t) && |before| == |p| && Mapped(rs, |memory|, |before|)
    requires p == before || p == Overlay(before, memory, rs)
    requires Received(before, Overlay(before, memory, rs), t) == Overlay(before, memory, rs)
    ensures Received(p, Overlay(p, memory, rs), t) == Overlay(before, memory, rs)
  {
    var view := Overlay(before, memory, rs);
    OverlayIsImage(before, memory, rs);
    SameOutside(p, before, memory, rs);
  }

  /** Direct memory with writeback, from Resume to the flush after Suspend: memory starts as the device has it, grabs
      only mark, and the flush brings the device up to date. */
  method WritebackLife(g: MemoryGrabber, failsafe: bool, blockSize: nat, periods: seq<Period>, last: seq<Store>)
    returns (ok: bool)
    requires g.Valid() && blockSize > 0 && g.updateDirty && g.trackers.writeback.Tracking?
    requires Overlay(g.prov[..], g.mem[..], g.regions) == g.prov[..]
    modifies g, g.mem, g.prov
    ensures ok ==> g.prov[..] == Overlay(old(g.prov[..]), g.mem[..], g.regions)
    ensures (forall x: nat | x < g.prov.Length :: Shown(g.regions, x)) ==> ok
  {
    ghost var before := g.prov[..];
    StartsTracked(g, failsafe);
    GrabUntilSuspended(g, failsafe, blockSize, periods, last, before);
    ghost var p, m := g.prov[..], g.mem[..];
    assert p == if g.updateMemory then Overlay(before, m, g.regions) else before;
    ghost var done;
    ok, done := FlushDevices(g);
    if ok {
      FlushedImage(g.regions, before, p, m, g.trackers.writeback);
    }
  }
}
