/** Direct memory (runtime.go:107-136, 479-519): which blocks a receiver must be sent after Resume, what keeps that list
    complete, and the writeback of dirty blocks to the device. */
module DirectMemory {
  import opened MemoryImage
  import opened MemoryGrab

  // ----- seeding the tracker on Resume -----

  lemma WholeBlock(b: nat, size: nat)
    requires size > 0
    ensures BlocksOf(Chunk(b * size, size), size) == {b}
  {
    forall x: nat | b * size <= x < b * size + size ensures x / size == b {
      assert x == b * size + (x - b * size);
      SameBlock(b, size, x - b * size);
    }
    assert b * size / size == b;
    assert b in BlocksOf(Chunk(b * size, size), size) by {
      assert Chunk(b * size, size).offset <= b * size < Chunk(b * size, size).offset + size;
    }
  }

  lemma SameBlock(b: nat, size: nat, k: nat)
    requires k < size
    ensures (b * size + k) / size == b
  {
    var q := (b * size + k) / size;
    assert q * size <= b * size + k < (q + 1) * size;
    if q < b {
      Monotone(q + 1, b, size);
    } else if b < q {
      Monotone(b + 1, q, size);
    }
  }

  lemma Monotone(a: int, b: int, size: int)
    requires a <= b && 0 <= size
    ensures a * size <= b * size
  {
    assert b * size == a * size + (b - a) * size;
  }

  lemma MarkBlock(t: Tracker, b: nat)
    requires TrackerFits(t) && t.Tracking?
    ensures Mark(t, Chunk(b * t.blockSize, t.blockSize)) == t.(blocks := t.blocks + {b})
  {
    WholeBlock(b, t.blockSize);
  }

  /** The tracker has got the blocks below `n` that are not on the list, and no other. */
  ghost predicate Seeded(t: Tracker, u: Tracker, unrequired: seq<nat>, n: nat) {
    && t.Tracking? && u.Tracking? && u.blockSize == t.blockSize
    && forall b: nat :: b in u.blocks <==> b in t.blocks || (b < n && b !in unrequired)
  }

  lemma SeededBytes(t: Tracker, u: Tracker, unrequired: seq<nat>, numBlocks: nat, x: nat)
    requires TrackerFits(t) && Seeded(t, u, unrequired, numBlocks)
    ensures x / t.blockSize in unrequired ==> (DirtyAt(u, x) <==> DirtyAt(t, x))
    ensures x / t.blockSize !in unrequired && x < numBlocks * t.blockSize ==> DirtyAt(u, x)
  {
    if x < numBlocks * t.blockSize {
      BlockInDevice(x, t.blockSize, numBlocks);
    }
  }

  /** Blocks the incoming migration did not leave to the receiver's other sources are marked dirty (lines 109-122). */
  method SeedDirty(t: Tracker, unrequired: seq<nat>, numBlocks: nat) returns (u: Tracker)
    requires TrackerFits(t) && t.Tracking? && forall k :: 0 <= k < |unrequired| ==> unrequired[k] < numBlocks
    ensures u.Tracking? && u.blockSize == t.blockSize && TrackerFits(u)
    ensures forall b: nat :: b in u.blocks <==> b in t.blocks || (b < numBlocks && b !in unrequired)
    ensures forall x: nat | x / t.blockSize in unrequired :: DirtyAt(u, x) <==> DirtyAt(t, x)
    ensures forall x: nat | x / t.blockSize !in unrequired && x < numBlocks * t.blockSize :: DirtyAt(u, x)
  {
    var blocks := new bool[numBlocks](_ => false);
    for k := 0 to |unrequired|
      invariant forall b :: 0 <= b < numBlocks ==> (blocks[b] <==> b in unrequired[..k])
    {
      blocks[unrequired[k]] := true;
    }
    assert unrequired[..|unrequired|] == unrequired;
    u := t;
    for b := 0 to numBlocks
      invariant forall c :: 0 <= c < numBlocks ==> (blocks[c] <==> c in unrequired)
      invariant Seeded(t, u, unrequired, b)
    {
      if !blocks[b] {
        MarkBlock(u, b);
        u := Mark(u, Chunk(b * u.blockSize, u.blockSize));
      }
    }
    forall x: nat {
      SeededBytes(t, u, unrequired, numBlocks, x);
    }
  }

  // ----- what a tracker must cover -----

  /** Where `base` and memory differ, the tracker or the soft-dirty bits know. */
  ghost predicate Covers(g: MemoryGrabber, base: seq<Byte>, memory: seq<Byte>, soft: set<nat>, t: Tracker) {
    && TrackerFits(t) && Mapped(g.regions, |memory|, |base|)
    && forall i: nat, a: nat {:trigger In(g.regions, i, a)} | In(g.regions, i, a) ::
         Agrees(g, base, memory, i, a) || Soft(soft, a) || DirtyAt(t, Off(g.regions, i, a))
  }

  ghost predicate Agrees(g: MemoryGrabber, base: seq<Byte>, memory: seq<Byte>, i: nat, a: nat)
    requires In(g.regions, i, a) && Mapped(g.regions, |memory|, |base|)
  {
    base[Off(g.regions, i, a)] == memory[a]
  }

  /** After Resume: what the receiver holds is what memory starts from, and everything else is dirty. */
  lemma SeededCovers(g: MemoryGrabber, base: seq<Byte>, memory: seq<Byte>, t: Tracker, unrequired: seq<nat>,
                     numBlocks: nat)
    requires TrackerFits(t) && t.Tracking? && forall b: nat | b < numBlocks && b !in unrequired :: b in t.blocks
    requires Mapped(g.regions, |memory|, |base|) && |base| <= numBlocks * t.blockSize
    requires forall i: nat, a: nat {:trigger In(g.regions, i, a)}
               | In(g.regions, i, a) && Off(g.regions, i, a) / t.blockSize in unrequired ::
               Agrees(g, base, memory, i, a)
    ensures Covers(g, base, memory, {}, t)
  {
    forall i: nat, a: nat | In(g.regions, i, a) && !DirtyAt(t, Off(g.regions, i, a))
      ensures Agrees(g, base, memory, i, a)
    {
      assert RegionFits(g.regions[i], |memory|, |base|);
      BlockInDevice(Off(g.regions, i, a), t.blockSize, numBlocks);
      assert Off(g.regions, i, a) / t.blockSize in unrequired;
    }
  }

  lemma BlockInDevice(x: nat, size: nat, numBlocks: nat)
    requires size > 0 && x < numBlocks * size
    ensures x / size < numBlocks
  {
  }

  lemma GuestKeepsCover(g: MemoryGrabber, base: seq<Byte>, mem0: seq<Byte>, mem1: seq<Byte>, soft0: set<nat>,
                        soft1: set<nat>, t: Tracker)
    requires Covers(g, base, mem0, soft0, t) && soft0 <= soft1 && |mem0| == |mem1|
    requires forall a: nat | a < |mem1| && mem1[a] != mem0[a] :: Soft(soft1, a)
    ensures Covers(g, base, mem1, soft1, t)
  {
    forall i: nat, a: nat | In(g.regions, i, a)
      ensures Agrees(g, base, mem1, i, a) || Soft(soft1, a) || DirtyAt(t, Off(g.regions, i, a))
    {
      assert RegionFits(g.regions[i], |mem0|, |base|);
      assert Agrees(g, base, mem0, i, a) || Soft(soft0, a) || DirtyAt(t, Off(g.regions, i, a));
    }
  }

  lemma FoundIsDirty(t: Tracker, marks: seq<Chunk>, x: nat)
    requires TrackerFits(t) && t.Tracking? && Found(marks, x)
    ensures DirtyAt(MarkAll(t, marks), x)
  {
    MarkAllCovers(t, marks);
    var c :| c in marks && Within(c, x);
    var k :| 0 <= k < |marks| && marks[k] == c;
    assert Within(marks[k], x);
  }

  lemma DirtyStays(t: Tracker, marks: seq<Chunk>, x: nat)
    requires TrackerFits(t) && t.Tracking? && DirtyAt(t, x)
    ensures DirtyAt(MarkAll(t, marks), x)
  {
    MarkAllCovers(t, marks);
  }

  /** A comparison marks a byte at which memory is not the provider, and lets no mark go. */
  lemma ComparedByte(prov: seq<Byte>, memory: seq<Byte>, rs: seq<Region>, blockSize: nat, t: Tracker, x: nat)
    requires blockSize > 0 && Mapped(rs, |memory|, |prov|) && TrackerFits(t) && t.Tracking?
    requires x < |prov| && Shown(rs, x)
    requires prov[x] != Overlay(prov, memory, rs)[x] || DirtyAt(t, x)
    ensures DirtyAt(MarkAll(t, AllChunks(prov, memory, rs, blockSize)), x)
  {
    var marks := AllChunks(prov, memory, rs, blockSize);
    if DirtyAt(t, x) {
      DirtyStays(t, marks, x);
    } else {
      var i :| 0 <= i < |rs| && Shows(rs[i], x);
      OverlayShown(prov, memory, rs, i, x);
      assert Differs(prov, memory, rs[i], x);
      AllChunksAreExact(prov, memory, rs, blockSize);
      FoundIsDirty(t, marks, x);
    }
  }

  /** A soft-dirty grab that marks turns soft-dirty bytes into dirty blocks; what the guest writes meanwhile is
      soft-dirty. */
  lemma MarkingKeepsCover(g: MemoryGrabber, base: seq<Byte>, mem0: seq<Byte>, mem1: seq<Byte>, soft0: set<nat>,
                          soft1: set<nat>, t: Tracker, marks: seq<Chunk>)
    requires Covers(g, base, mem0, soft0, t) && t.Tracking? && |mem0| == |mem1|
    requires forall i: nat, a: nat {:trigger In(g.regions, i, a)} | In(g.regions, i, a) && Soft(soft0, a) ::
               Found(marks, Off(g.regions, i, a))
    requires forall a: nat | a < |mem1| && mem1[a] != mem0[a] :: Soft(soft1, a)
    ensures Covers(g, base, mem1, soft1, MarkAll(t, marks))
  {
    forall i: nat, a: nat | In(g.regions, i, a)
      ensures Agrees(g, base, mem1, i, a) || Soft(soft1, a) || DirtyAt(MarkAll(t, marks), Off(g.regions, i, a))
    {
      assert RegionFits(g.regions[i], |mem0|, |base|);
      if Soft(soft0, a) {
        FoundIsDirty(t, marks, Off(g.regions, i, a));
      } else if DirtyAt(t, Off(g.regions, i, a)) {
        DirtyStays(t, marks, Off(g.regions, i, a));
      } else {
        assert Agrees(g, base, mem0, i, a);
      }
    }
  }

  // ----- what the receiver ends up with -----

  /** `base` with the dirty blocks taken from `view`. */
  ghost function Received(base: seq<Byte>, view: seq<Byte>, t: Tracker): (p: seq<Byte>)
    requires |base| == |view| && TrackerFits(t)
    ensures |p| == |base|
  {
    seq(|base|, x requires 0 <= x < |base| => if DirtyAt(t, x) then view[x] else base[x])
  }

  lemma ReceivedAt(base: seq<Byte>, view: seq<Byte>, t: Tracker, x: nat)
    requires |base| == |view| && TrackerFits(t) && x < |base|
    ensures Received(base, view, t)[x] == if DirtyAt(t, x) then view[x] else base[x]
  {
  }

  /** Held blocks overlaid with dirty blocks are guest memory, once nothing is soft-dirty. */
  lemma ReceiverGetsMemory(g: MemoryGrabber, base: seq<Byte>, memory: seq<Byte>, t: Tracker)
    requires Covers(g, base, memory, {}, t)
    ensures Received(base, Overlay(base, memory, g.regions), t) == Overlay(base, memory, g.regions)
  {
    var view := Overlay(base, memory, g.regions);
    forall x: nat | x < |base| && !DirtyAt(t, x) ensures base[x] == view[x] {
      if i :| 0 <= i < |g.regions| && Shows(g.regions[i], x) {
        OverlayShown(base, memory, g.regions, i, x);
        var a := g.regions[i].start + (x - g.regions[i].offset);
        assert In(g.regions, i, a) && Off(g.regions, i, a) == x;
        assert Agrees(g, base, memory, i, a);
      } else {
        OverlayHidden(base, memory, g.regions, x);
      }
    }
  }

  /** And only then: a byte that differs and is in no dirty block is one the receiver gets wrong. */
  lemma UncoveredIsLost(g: MemoryGrabber, base: seq<Byte>, memory: seq<Byte>, t: Tracker)
    requires TrackerFits(t) && Mapped(g.regions, |memory|, |base|)
    requires Received(base, Overlay(base, memory, g.regions), t) == Overlay(base, memory, g.regions)
    ensures Covers(g, base, memory, {}, t)
  {
    var view := Overlay(base, memory, g.regions);
    forall i: nat, a: nat | In(g.regions, i, a) && !DirtyAt(t, Off(g.regions, i, a))
      ensures Agrees(g, base, memory, i, a)
    {
      var x := Off(g.regions, i, a);
      assert Shows(g.regions[i], x);
      OverlayShown(base, memory, g.regions, i, x);
      ReceivedAt(base, view, t, x);
    }
  }

  // ----- writeback -----

  predicate Shown(rs: seq<Region>, x: nat) {
    exists i :: 0 <= i < |rs| && Shows(rs[i], x)
  }

  lemma MappedAt(rs: seq<Region>, device: nat, memory: nat, i: nat, a: nat)
    requires Mapped(rs, memory, device) && In(rs, i, a)
    ensures a < memory && Off(rs, i, a) < device && RegionFits(rs[i], memory, device) && Shows(rs[i], Off(rs, i, a))
    ensures rs[i].start + (Off(rs, i, a) - rs[i].offset) == a
  {
  }

  /** The image at the place of a mapped byte. */
  lemma ImageAt(rs: seq<Region>, prov: seq<Byte>, memory: seq<Byte>, i: nat, a: nat)
    requires Mapped(rs, |memory|, |prov|) && In(rs, i, a)
    ensures a < |memory| && Off(rs, i, a) < |prov| && Shown(rs, Off(rs, i, a))
    ensures Overlay(prov, memory, rs)[Off(rs, i, a)] == memory[a]
  {
    MappedAt(rs, |prov|, |memory|, i, a);
    OverlayShown(prov, memory, rs, i, Off(rs, i, a));
  }

  /** One byte of guest memory, by its place on the device; no region shows it, no byte. */
  method ReadByte(g: MemoryGrabber, x: nat, ghost base: seq<Byte>) returns (ok: bool, value: Byte)
    requires g.Valid() && x < |base| == g.prov.Length
    ensures ok <==> Shown(g.regions, x)
    ensures ok ==> value == Overlay(base, g.mem[..], g.regions)[x]
  {
    ok, value := false, 0;
    for i := 0 to |g.regions|
      invariant forall j :: 0 <= j < i ==> !Shows(g.regions[j], x)
    {
      var r := g.regions[i];
      if Shows(r, x) {
        OverlayShown(base, g.mem[..], g.regions, i, x);
        return true, g.mem[r.start + (x - r.offset)];
      }
    }
  }

  /** Reading guest memory by device offset; an unmapped byte is an error. */
  method ReadMemory(g: MemoryGrabber, buffer: array<Byte>, n: nat, at: nat, ghost base: seq<Byte>) returns (ok: bool)
    requires g.Valid() && n <= buffer.Length && at + n <= |base| == g.prov.Length && buffer != g.mem && buffer != g.prov
    modifies buffer
    ensures ok <==> forall x: nat | at <= x < at + n :: Shown(g.regions, x)
    ensures ok ==> buffer[..n] == Overlay(base, g.mem[..], g.regions)[at..at + n]
  {
    for k := 0 to n
      invariant forall x: nat | at <= x < at + k :: Shown(g.regions, x)
      invariant buffer[..k] == Overlay(base, g.mem[..], g.regions)[at..at + k]
    {
      var value;
      ok, value := ReadByte(g, at + k, base);
      if !ok {
        return false;
      }
      buffer[k] := value;
    }
    ok := true;
  }

  predicate StartsInside(b: nat, blockSize: nat, size: nat) {
    b * blockSize < size
  }

  /** The dirty blocks of a device, in order. */
  method DirtyBlocks(t: Tracker, size: nat) returns (list: seq<nat>)
    requires t.Tracking? && t.blockSize > 0
    ensures forall i, j :: 0 <= i < j < |list| ==> list[i] < list[j]
    ensures forall b :: b in list <==> b in t.blocks && StartsInside(b, t.blockSize, size)
  {
    var length := (size + t.blockSize - 1) / t.blockSize;
    list := [];
    for b := 0 to length
      invariant forall i, j :: 0 <= i < j < |list| ==> list[i] < list[j]
      invariant forall i :: 0 <= i < |list| ==> list[i] < b
      invariant forall c :: c in list <==> c in t.blocks && c < b
    {
      if b in t.blocks {
        list := list + [b];
      }
    }
    forall b: nat ensures b < length <==> StartsInside(b, t.blockSize, size) {
      CountedBlock(b, t.blockSize, size, length);
    }
  }

  /** Every byte of the device that lies in one of the blocks is mapped. */
  ghost predicate Readable(rs: seq<Region>, size: nat, blockSize: nat, blocks: set<nat>)
    requires blockSize > 0
  {
    forall x: nat | x < size && x / blockSize in blocks :: Shown(rs, x)
  }

  lemma InBlock(b: nat, size: nat, x: nat)
    requires size > 0
    ensures x / size == b <==> b * size <= x < b * size + size
  {
    assert x == x / size * size + x % size;
    if b * size <= x < b * size + size {
      SameBlock(b, size, x - b * size);
    }
  }

  /** Writing one more block. */
  lemma ReceivedGrows(base: seq<Byte>, view: seq<Byte>, size: nat, done: set<nat>, b: nat, n: nat)
    requires size > 0 && |base| == |view| && b * size < |base|
    requires n == (if b * size + size > |base| then |base| - b * size else size)
    ensures var p, at := Received(base, view, Tracking(size, done)), b * size;
            Received(base, view, Tracking(size, done + {b})) == p[..at] + view[at..at + n] + p[at + n..]
  {
    var p, q, at :=
      Received(base, view, Tracking(size, done)), Received(base, view, Tracking(size, done + {b})), b * size;
    var r := p[..at] + view[at..at + n] + p[at + n..];
    forall x: nat | x < |base| ensures q[x] == r[x] {
      InBlock(b, size, x);
    }
  }

  /** FlushDevices (lines 479-519): dirty blocks are copied from guest memory, the last one cut at the end of the
      device. */
  method FlushDevices(g: MemoryGrabber) returns (ok: bool, ghost done: set<nat>)
    requires g.Valid() && g.trackers.writeback.Tracking?
    modifies g.prov
    ensures g.Valid() && done <= g.trackers.writeback.blocks
    ensures g.prov[..] == Received(old(g.prov[..]), Overlay(old(g.prov[..]), g.mem[..], g.regions),
                                   Tracking(g.trackers.writeback.blockSize, done))
    ensures ok ==> g.prov[..] == Received(old(g.prov[..]), Overlay(old(g.prov[..]), g.mem[..], g.regions),
                                          g.trackers.writeback)
    ensures ok <==> Readable(g.regions, g.prov.Length, g.trackers.writeback.blockSize, g.trackers.writeback.blocks)
  {
    var t := g.trackers.writeback;
    ghost var base, view := g.prov[..], Overlay(g.prov[..], g.mem[..], g.regions);
    var dirtyBlocks := DirtyBlocks(t, g.prov.Length);
    ok, done := FlushBlocks(g, dirtyBlocks, base);
    if ok {
      FlushedAll(g.regions, base, view, t, done);
    } else {
      ghost var b :| b in dirtyBlocks && !Readable(g.regions, |base|, t.blockSize, {b});
      ReadableParts(g.regions, |base|, t.blockSize, t.blocks, b);
    }
  }

  /** Its loop, which stops at the first block it cannot read. */
  method FlushBlocks(g: MemoryGrabber, dirtyBlocks: seq<nat>, ghost base: seq<Byte>)
    returns (ok: bool, ghost done: set<nat>)
    requires g.Valid() && g.trackers.writeback.Tracking? && base == g.prov[..]
    requires forall b :: b in dirtyBlocks ==>
               b in g.trackers.writeback.blocks && StartsInside(b, g.trackers.writeback.blockSize, |base|)
    modifies g.prov
    ensures done <= g.trackers.writeback.blocks && forall b :: b in done ==> b in dirtyBlocks
    ensures g.prov[..] ==
            Received(base, Overlay(base, g.mem[..], g.regions), Tracking(g.trackers.writeback.blockSize, done))
    ensures ok ==>
              && (forall b :: b in dirtyBlocks ==> b in done)
              && Readable(g.regions, |base|, g.trackers.writeback.blockSize, done)
    ensures !ok ==> exists b :: b in dirtyBlocks && !Readable(g.regions, |base|, g.trackers.writeback.blockSize, {b})
  {
    var size := g.trackers.writeback.blockSize;
    var buffer := new Byte[size];
    done := {};
    assert g.prov[..] == Received(base, Overlay(base, g.mem[..], g.regions), Tracking(size, {}));
    for k := 0 to |dirtyBlocks|
      invariant forall b :: b in done ==> b in dirtyBlocks
      invariant forall j :: 0 <= j < k ==> dirtyBlocks[j] in done
      invariant Readable(g.regions, |base|, size, done)
      invariant g.prov[..] == Received(base, Overlay(base, g.mem[..], g.regions), Tracking(size, done))
    {
      assert dirtyBlocks[k] in dirtyBlocks;
      ok := WriteBack(g, buffer, dirtyBlocks[k], base, done);
      if !ok {
        return;
      }
      ReadableGrows(g.regions, |base|, size, done, dirtyBlocks[k]);
      done := done + {dirtyBlocks[k]};
    }
    ok := true;
  }

  lemma ReadableGrows(rs: seq<Region>, size: nat, blockSize: nat, done: set<nat>, b: nat)
    requires blockSize > 0 && Readable(rs, size, blockSize, done) && Readable(rs, size, blockSize, {b})
    ensures Readable(rs, size, blockSize, done + {b})
  {
  }

  lemma ReadableParts(rs: seq<Region>, size: nat, blockSize: nat, blocks: set<nat>, b: nat)
    requires blockSize > 0 && b in blocks && !Readable(rs, size, blockSize, {b})
    ensures !Readable(rs, size, blockSize, blocks)
  {
  }

  lemma ReadableBlock(rs: seq<Region>, size: nat, blockSize: nat, b: nat, n: nat)
    requires blockSize > 0 && b * blockSize < size
    requires n == (if b * blockSize + blockSize > size then size - b * blockSize else blockSize)
    ensures Readable(rs, size, blockSize, {b}) <==>
              forall x: nat | b * blockSize <= x < b * blockSize + n :: Shown(rs, x)
  {
    forall x: nat ensures x / blockSize == b <==> b * blockSize <= x < b * blockSize + blockSize {
      InBlock(b, blockSize, x);
    }
  }

  lemma CountedBlock(b: nat, blockSize: nat, size: nat, length: nat)
    requires blockSize > 0 && length == (size + blockSize - 1) / blockSize
    ensures b < length <==> b * blockSize < size
  {
    assert length * blockSize <= size + blockSize - 1 < (length + 1) * blockSize;
    if length <= b {
      Monotone(length, b, blockSize);
    } else {
      Monotone(b + 1, length, blockSize);
    }
  }

  /** Blocks past the end of the device hold none of its bytes. */
  lemma FlushedAll(rs: seq<Region>, base: seq<Byte>, view: seq<Byte>, t: Tracker, done: set<nat>)
    requires t.Tracking? && t.blockSize > 0 && done <= t.blocks && |base| == |view|
    requires forall b: nat | b in t.blocks && StartsInside(b, t.blockSize, |base|) :: b in done
    ensures Received(base, view, Tracking(t.blockSize, done)) == Received(base, view, t)
    ensures Readable(rs, |base|, t.blockSize, done) ==> Readable(rs, |base|, t.blockSize, t.blocks)
  {
    forall x: nat | x < |base| ensures StartsInside(x / t.blockSize, t.blockSize, |base|) {
      InBlock(x / t.blockSize, t.blockSize, x);
    }
  }

  /** One block of it. */
  method WriteBack(g: MemoryGrabber, buffer: array<Byte>, b: nat, ghost base: seq<Byte>, ghost done: set<nat>)
    returns (ok: bool)
    requires g.Valid() && g.trackers.writeback.Tracking? && buffer.Length == g.trackers.writeback.blockSize
    requires StartsInside(b, buffer.Length, |base|) && buffer != g.mem && buffer != g.prov && |base| == g.prov.Length
    requires g.prov[..] == Received(base, Overlay(base, g.mem[..], g.regions), Tracking(buffer.Length, done))
    modifies buffer, g.prov
    ensures ok <==> Readable(g.regions, |base|, buffer.Length, {b})
    ensures g.prov[..] ==
            Received(base, Overlay(base, g.mem[..], g.regions),
                     Tracking(buffer.Length, if ok then done + {b} else done))
  {
    var at := b * buffer.Length;
    var n := if at + buffer.Length > g.prov.Length then g.prov.Length - at else buffer.Length;
    ghost var size, p, view := buffer.Length, g.prov[..], Overlay(base, g.mem[..], g.regions);
    ReadableBlock(g.regions, |base|, size, b, n);
    ReceivedGrows(base, view, size, done, b, n);
    ok := CopyBlock(g, buffer, n, at, base);
    assert Overlay(base, g.mem[..], g.regions) == view;
    assert g.prov[..] == if ok then p[..at] + view[at..at + n] + p[at + n..] else p;
  }

  /** Read a stretch of guest memory and write it to the provider. */
  method CopyBlock(g: MemoryGrabber, buffer: array<Byte>, n: nat, at: nat, ghost base: seq<Byte>) returns (ok: bool)
    requires g.Valid() && n <= buffer.Length && at + n <= |base| == g.prov.Length && buffer != g.mem && buffer != g.prov
    modifies buffer, g.prov
    ensures ok <==> forall x: nat | at <= x < at + n :: Shown(g.regions, x)
    ensures var p, view := old(g.prov[..]), Overlay(base, g.mem[..], g.regions);
            g.prov[..] == if ok then p[..at] + view[at..at + n] + p[at + n..] else p
  {
    ok := ReadMemory(g, buffer, n, at, base);
    if ok {
      MemoryGrabber.WriteAt(g.prov, buffer, n, at);
    }
  }
}
