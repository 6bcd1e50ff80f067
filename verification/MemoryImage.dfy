/** Memory regions, the provider image they make, and dirty trackers: the values behind the memory grab. */
module MemoryImage {

  type Byte = bv8

  const PAGE: nat := 4096

  /** A mapping of /memory: the process addresses [start, end) show the provider from `offset` on. */
  datatype Region = Region(start: nat, end: nat, offset: nat)

  /** A range of process addresses. */
  datatype Range = Range(start: nat, end: nat)

  /** A stretch of the provider. */
  datatype Chunk = Chunk(offset: nat, length: nat)

  predicate RegionFits(r: Region, memory: nat, provider: nat) {
    r.start <= r.end <= memory && r.offset + (r.end - r.start) <= provider
  }

  predicate Apart(a: Region, b: Region) {
    && (a.end <= b.start || b.end <= a.start)
    && (a.offset + (a.end - a.start) <= b.offset || b.offset + (b.end - b.start) <= a.offset)
  }

  /** The regions lie inside memory and provider and are disjoint in both. */
  ghost predicate Mapped(rs: seq<Region>, memory: nat, provider: nat) {
    && (forall i :: 0 <= i < |rs| ==> RegionFits(rs[i], memory, provider))
    && (forall i, j :: 0 <= i < j < |rs| ==> Apart(rs[i], rs[j]))
  }

  predicate Shows(r: Region, offset: nat) {
    r.start <= r.end && r.offset <= offset < r.offset + (r.end - r.start)
  }

  /** `a` is an address of region `i`. */
  predicate In(rs: seq<Region>, i: nat, a: nat) {
    i < |rs| && rs[i].start <= a < rs[i].end
  }

  function Off(rs: seq<Region>, i: nat, a: nat): nat
    requires In(rs, i, a)
  {
    rs[i].offset + (a - rs[i].start)
  }

  /** The page of address `a` is soft-dirty. */
  predicate Soft(soft: set<nat>, a: nat) {
    a / PAGE in soft
  }

  // ----- the image -----

  function Splice(prov: seq<Byte>, mem: seq<Byte>, r: Region): (p: seq<Byte>)
    requires RegionFits(r, |mem|, |prov|)
    ensures |p| == |prov|
  {
    prov[..r.offset] + mem[r.start..r.end] + prov[r.offset + (r.end - r.start)..]
  }

  /** The region cut short at address `o`. */
  function Cut(r: Region, o: nat): Region
    requires r.start <= o
  {
    Region(r.start, if o < r.end then o else r.end, r.offset)
  }

  lemma SpliceGrows(prov: seq<Byte>, mem: seq<Byte>, r: Region, o: nat, n: nat)
    requires RegionFits(r, |mem|, |prov|) && r.start <= o && o + n <= r.end
    ensures var p := Splice(prov, mem, Cut(r, o)); var at := r.offset + (o - r.start);
            p[..at] + mem[o..o + n] + p[at + n..] == Splice(prov, mem, Cut(r, o + n))
  {
  }

  /** The provider with every region taken from memory. */
  function Overlay(prov: seq<Byte>, mem: seq<Byte>, rs: seq<Region>): (p: seq<Byte>)
    requires forall i :: 0 <= i < |rs| ==> RegionFits(rs[i], |mem|, |prov|)
    ensures |p| == |prov|
    decreases |rs|
  {
    if rs == [] then prov else Splice(Overlay(prov, mem, rs[..|rs| - 1]), mem, rs[|rs| - 1])
  }

  /** Equal to memory wherever a region shows it, and to the old provider everywhere else. */
  ghost predicate IsImage(p: seq<Byte>, prov: seq<Byte>, mem: seq<Byte>, rs: seq<Region>)
    requires forall i :: 0 <= i < |rs| ==> RegionFits(rs[i], |mem|, |prov|)
  {
    && |p| == |prov|
    && (forall i, x: nat | 0 <= i < |rs| && RegionFits(rs[i], |mem|, |p|) && Shows(rs[i], x) ::
          p[x] == mem[rs[i].start + (x - rs[i].offset)])
    && (forall x: nat | x < |p| && (forall i :: 0 <= i < |rs| ==> !Shows(rs[i], x)) :: p[x] == prov[x])
  }

  lemma SpliceAt(prov: seq<Byte>, mem: seq<Byte>, r: Region, x: nat)
    requires RegionFits(r, |mem|, |prov|) && x < |prov|
    ensures Splice(prov, mem, r)[x] == if Shows(r, x) then mem[r.start + (x - r.offset)] else prov[x]
  {
  }

  lemma OverlayLast(prov: seq<Byte>, mem: seq<Byte>, rs: seq<Region>, r: Region, x: nat)
    requires forall i :: 0 <= i < |rs| ==> RegionFits(rs[i], |mem|, |prov|)
    requires RegionFits(r, |mem|, |prov|) && x < |prov|
    ensures Overlay(prov, mem, rs + [r])[x] ==
            if Shows(r, x) then mem[r.start + (x - r.offset)] else Overlay(prov, mem, rs)[x]
  {
    assert (rs + [r])[..|rs|] == rs;
    SpliceAt(Overlay(prov, mem, rs), mem, r, x);
  }

  /** A mapped byte is memory's. */
  lemma {:induction false} OverlayShown(prov: seq<Byte>, mem: seq<Byte>, rs: seq<Region>, i: nat, x: nat)
    requires Mapped(rs, |mem|, |prov|) && i < |rs| && Shows(rs[i], x)
    ensures RegionFits(rs[i], |mem|, |prov|) && Overlay(prov, mem, rs)[x] == mem[rs[i].start + (x - rs[i].offset)]
    decreases |rs|
  {
    var k := |rs| - 1;
    assert rs == rs[..k] + [rs[k]];
    OverlayLast(prov, mem, rs[..k], rs[k], x);
    if i < k {
      assert Apart(rs[i], rs[k]);
      OverlayShown(prov, mem, rs[..k], i, x);
    }
  }

  /** Any other byte stays. */
  lemma {:induction false} OverlayHidden(prov: seq<Byte>, mem: seq<Byte>, rs: seq<Region>, x: nat)
    requires Mapped(rs, |mem|, |prov|) && x < |prov| && forall i :: 0 <= i < |rs| ==> !Shows(rs[i], x)
    ensures Overlay(prov, mem, rs)[x] == prov[x]
    decreases |rs|
  {
    if rs != [] {
      var k := |rs| - 1;
      assert rs == rs[..k] + [rs[k]];
      OverlayLast(prov, mem, rs[..k], rs[k], x);
      OverlayHidden(prov, mem, rs[..k], x);
    }
  }

  lemma OverlayIsImage(prov: seq<Byte>, mem: seq<Byte>, rs: seq<Region>)
    requires Mapped(rs, |mem|, |prov|)
    ensures IsImage(Overlay(prov, mem, rs), prov, mem, rs)
  {
    var p := Overlay(prov, mem, rs);
    forall i, x: nat | 0 <= i < |rs| && RegionFits(rs[i], |mem|, |p|) && Shows(rs[i], x)
      ensures p[x] == mem[rs[i].start + (x - rs[i].offset)]
    {
      OverlayShown(prov, mem, rs, i, x);
    }
    forall x: nat | x < |p| && (forall i :: 0 <= i < |rs| ==> !Shows(rs[i], x)) ensures p[x] == prov[x] {
      OverlayHidden(prov, mem, rs, x);
    }
  }

  /** The two conditions leave no freedom. */
  lemma ImageIsUnique(p: seq<Byte>, q: seq<Byte>, prov: seq<Byte>, mem: seq<Byte>, rs: seq<Region>)
    requires forall i :: 0 <= i < |rs| ==> RegionFits(rs[i], |mem|, |prov|)
    requires IsImage(p, prov, mem, rs) && IsImage(q, prov, mem, rs)
    ensures p == q
  {
    forall x: nat | x < |p| ensures p[x] == q[x] {
      if i :| 0 <= i < |rs| && Shows(rs[i], x) {
        assert p[x] == mem[rs[i].start + (x - rs[i].offset)];
      }
    }
  }

  // ----- dirty trackers -----

  /** A remote dirty tracker; nil is `Absent`. */
  datatype Tracker = Absent | Tracking(blockSize: nat, blocks: set<nat>)

  predicate TrackerFits(t: Tracker) {
    t.Tracking? ==> t.blockSize > 0
  }

  /** The blocks of a stretch: those of its bytes. */
  function BlocksOf(c: Chunk, size: nat): set<nat>
    requires size > 0
  {
    set x: nat | c.offset <= x < c.offset + c.length :: x / size
  }

  /** MarkDirty marks every block the stretch touches. */
  function Mark(t: Tracker, c: Chunk): (u: Tracker)
    requires TrackerFits(t)
    ensures TrackerFits(u)
  {
    if t.Absent? then t
    else
      t.(blocks := t.blocks + BlocksOf(c, t.blockSize))
  }

  function MarkAll(t: Tracker, cs: seq<Chunk>): (u: Tracker)
    requires TrackerFits(t)
    ensures TrackerFits(u)
    decreases |cs|
  {
    if cs == [] then t else Mark(MarkAll(t, cs[..|cs| - 1]), cs[|cs| - 1])
  }

  lemma {:induction false} MarkAllConcat(t: Tracker, a: seq<Chunk>, b: seq<Chunk>)
    requires TrackerFits(t)
    ensures MarkAll(MarkAll(t, a), b) == MarkAll(t, a + b)
    decreases |b|
  {
    if b == [] {
      assert a + b == a;
    } else {
      var k := |b| - 1;
      assert (a + b)[..|a + b| - 1] == a + b[..k];
      MarkAllConcat(t, a, b[..k]);
    }
  }

  /** The three remote trackers the runtime may hold. */
  datatype Trackers = Trackers(direct: Tracker, sync: Tracker, writeback: Tracker)

  predicate TrackersFit(ts: Trackers) {
    TrackerFits(ts.direct) && TrackerFits(ts.sync) && TrackerFits(ts.writeback)
  }

  /** Every chunk marked on every tracker that is set. */
  function MarkEach(ts: Trackers, cs: seq<Chunk>): (us: Trackers)
    requires TrackersFit(ts)
    ensures TrackersFit(us)
  {
    Trackers(MarkAll(ts.direct, cs), MarkAll(ts.sync, cs), MarkAll(ts.writeback, cs))
  }

  lemma MarkEachConcat(ts: Trackers, a: seq<Chunk>, b: seq<Chunk>)
    requires TrackersFit(ts)
    ensures MarkEach(MarkEach(ts, a), b) == MarkEach(ts, a + b)
  {
    MarkAllConcat(ts.direct, a, b);
    MarkAllConcat(ts.sync, a, b);
    MarkAllConcat(ts.writeback, a, b);
  }

  lemma MarkNone(ts: Trackers)
    requires TrackersFit(ts)
    ensures MarkEach(ts, []) == ts
  {
  }

  lemma MarkOne(ts: Trackers, c: Chunk)
    requires TrackersFit(ts)
    ensures MarkEach(ts, [c]) == Trackers(Mark(ts.direct, c), Mark(ts.sync, c), Mark(ts.writeback, c))
  {
    assert [c][..|[c]| - 1] == [];
    MarkNone(ts);
  }

  predicate Within(c: Chunk, x: nat) {
    c.offset <= x < c.offset + c.length
  }

  /** A byte counts as dirty when its block is. */
  predicate DirtyAt(t: Tracker, x: nat)
    requires TrackerFits(t)
  {
    t.Tracking? && x / t.blockSize in t.blocks
  }

  /** Marking keeps old marks, marks every byte of every chunk, and marks no block that no chunk touches. */
  lemma {:induction false} MarkAllCovers(t: Tracker, cs: seq<Chunk>)
    requires TrackerFits(t) && t.Tracking?
    ensures MarkAll(t, cs).Tracking? && MarkAll(t, cs).blockSize == t.blockSize && t.blocks <= MarkAll(t, cs).blocks
    ensures forall i, x: nat | 0 <= i < |cs| && Within(cs[i], x) :: DirtyAt(MarkAll(t, cs), x)
    decreases |cs|
  {
    if cs != [] {
      var k := |cs| - 1;
      var front, u := cs[..k], MarkAll(t, cs[..k]);
      MarkAllCovers(t, front);
      forall i, x: nat | 0 <= i < |cs| && Within(cs[i], x) ensures DirtyAt(MarkAll(t, cs), x) {
        if i < k {
          assert Within(front[i], x) && DirtyAt(u, x);
        } else {
          assert x / t.blockSize in BlocksOf(cs[k], t.blockSize);
        }
      }
    }
  }

  lemma {:induction false} MarkAllOnly(t: Tracker, cs: seq<Chunk>, b: nat) returns (i: nat, x: nat)
    requires TrackerFits(t) && t.Tracking?
    requires MarkAll(t, cs).Tracking? && b in MarkAll(t, cs).blocks && b !in t.blocks
    ensures i < |cs| && Within(cs[i], x) && x / t.blockSize == b
    decreases |cs|
  {
    var k := |cs| - 1;
    var u := MarkAll(t, cs[..k]);
    MarkAllCovers(t, cs[..k]);
    if b in u.blocks {
      i, x := MarkAllOnly(t, cs[..k], b);
    } else {
      i := k;
      assert b in BlocksOf(cs[k], t.blockSize);
      x :| cs[k].offset <= x < cs[k].offset + cs[k].length && x / t.blockSize == b;
    }
  }
}
