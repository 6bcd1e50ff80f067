/** What the handover assumes of the memory device, proved of the grabs: with the machine stopped, a successful grab is
    the flush of HandoverSystem, and while it runs the steps of a grab under direct memory are write-backs and dirty
    marks of that system, so its theorems speak about direct memory too (runtime.go:466-475, 547-806). */
module GrabIsFlush {
  import opened MemoryImage
  import opened MemoryGrab
  import opened DirectMemory
  import opened Chains
  import Handover
  import System = HandoverSystem
  import Direct = DirectTransfer

  // ----- a device in blocks -----

  function NumBlocks(device: nat, size: nat): nat
    requires size > 0
  {
    (device + size - 1) / size
  }

  /** The last block ends with the device. */
  function BlockAt(p: seq<Byte>, size: nat, b: nat): seq<Byte>
    requires b * size <= |p|
  {
    p[b * size..if b * size + size <= |p| then b * size + size else |p|]
  }

  ghost function InBlocks(p: seq<Byte>, size: nat): (blocks: seq<seq<Byte>>)
    requires size > 0
    ensures |blocks| == NumBlocks(|p|, size)
  {
    seq(NumBlocks(|p|, size), b requires 0 <= b < NumBlocks(|p|, size) =>
      CountedBlock(b, size, |p|, NumBlocks(|p|, size)); BlockAt(p, size, b))
  }

  lemma ByteInBlock(device: nat, size: nat, x: nat)
    requires size > 0 && x < device
    ensures x / size < NumBlocks(device, size)
  {
    InBlock(x / size, size, x);
    CountedBlock(x / size, size, device, NumBlocks(device, size));
  }

  /** Blocks differ only where some byte does. */
  lemma SameBytes(p: seq<Byte>, q: seq<Byte>, size: nat, b: nat)
    requires size > 0 && |p| == |q| && b < NumBlocks(|p|, size)
    requires forall x: nat | x < |p| && x / size == b :: p[x] == q[x]
    ensures InBlocks(p, size)[b] == InBlocks(q, size)[b]
  {
    CountedBlock(b, size, |p|, NumBlocks(|p|, size));
    forall k | 0 <= k < |BlockAt(p, size, b)| ensures BlockAt(p, size, b)[k] == BlockAt(q, size, b)[k] {
      InBlock(b, size, b * size + k);
    }
  }

  // ----- the memory device as the handover sees it -----

  /** A mapped byte of block `b` is soft-dirty. */
  ghost predicate SoftBlock(rs: seq<Region>, soft: set<nat>, size: nat, b: nat)
    requires size > 0
  {
    exists i, a :: In(rs, i, a) && Soft(soft, a) && Off(rs, i, a) / size == b
  }

  ghost function SoftBlocks(rs: seq<Region>, soft: set<nat>, device: nat, size: nat): set<nat>
    requires size > 0
  {
    set b: nat | b < NumBlocks(device, size) && SoftBlock(rs, soft, size, b)
  }

  /** The store of the memory device: what the guest sees, what readers see, and the tracker the migration fetches. */
  ghost predicate Pictures(st: System.Store, guest: seq<Byte>, src: seq<Byte>, unflushed: set<nat>, t: Tracker) {
    && t.Tracking? && t.blockSize > 0 && |guest| == |src|
    && st.guest == InBlocks(guest, t.blockSize) && st.src == InBlocks(src, t.blockSize)
    && st.unflushed == unflushed && st.dirty == t.blocks
  }

  /** Marking the ranges that hold exactly the soft-dirty bytes marks exactly their blocks. */
  lemma SoftBlocksMarked(rs: seq<Region>, soft: set<nat>, memory: nat, device: nat, t: Tracker, ranges: seq<Chunk>)
    requires Mapped(rs, memory, device) && t.Tracking? && t.blockSize > 0 && Direct.Collects(rs, soft, ranges)
    ensures MarkAll(t, ranges) == t.(blocks := t.blocks + SoftBlocks(rs, soft, device, t.blockSize))
  {
    MarkAllCovers(t, ranges);
    forall b | b in SoftBlocks(rs, soft, device, t.blockSize) ensures b in MarkAll(t, ranges).blocks {
      var i, a :| In(rs, i, a) && Soft(soft, a) && Off(rs, i, a) / t.blockSize == b;
      FoundIsDirty(t, ranges, Off(rs, i, a));
    }
    forall b | b in MarkAll(t, ranges).blocks && b !in t.blocks ensures b in SoftBlocks(rs, soft, device, t.blockSize) {
      var k, x := MarkAllOnly(t, ranges, b);
      assert Found(ranges, x);
      var i, a :| In(rs, i, a) && Soft(soft, a) && Off(rs, i, a) == x;
      Direct.OffInDevice(rs, memory, device, i, a);
      ByteInBlock(device, t.blockSize, x);
      assert SoftBlock(rs, soft, t.blockSize, b);
    }
  }

  lemma NothingSoft(rs: seq<Region>, device: nat, size: nat)
    requires size > 0
    ensures SoftBlocks(rs, {}, device, size) == {}
  {
  }

  /** A flush that brings every unflushed block up to date and marks it. */
  lemma FlushPictures(st: System.Store, guest: seq<Byte>, src: seq<Byte>, unflushed: set<nat>, t: Tracker, u: Tracker)
    requires Pictures(st, guest, src, unflushed, t)
    requires u == t.(blocks := t.blocks + unflushed)
    requires forall b | 0 <= b < |st.guest| && b !in unflushed :: st.guest[b] == st.src[b]
    ensures Pictures(System.Flushed(st), guest, guest, {}, u)
  {
    assert System.Flushed(st).src == st.guest;
  }

  // ----- the last grab -----

  ghost function ViewOf(g: MemoryGrabber): seq<Byte>
    requires g.Valid()
    reads g, g.mem, g.prov
  {
    Overlay(g.prov[..], g.mem[..], g.regions)
  }

  ghost function SoftOf(g: MemoryGrabber, size: nat): set<nat>
    requires size > 0
    reads g, g.prov
  {
    SoftBlocks(g.regions, g.softPages, g.prov.Length, size)
  }

  /** Direct memory: the migration reads the process, so its readers see what the guest sees; unflushed is what no dirty
      mark shows. A soft-dirty grab of the stopped machine is the flush. */
  method DirectGrabFlushes(g: MemoryGrabber, guest: Guest, ghost st: System.Store)
    requires g.Valid() && Stopped(guest) && g.updateDirty && (g.updateMemory ==> g.Covered({}))
    requires g.trackers.direct.Tracking?
    requires Pictures(st, ViewOf(g), ViewOf(g), SoftOf(g, g.trackers.direct.blockSize), g.trackers.direct)
    modifies g, g.mem, g.prov
    ensures g.Valid() && ViewOf(g) == old(ViewOf(g))
    ensures Pictures(System.Flushed(st), ViewOf(g), ViewOf(g), {}, g.trackers.direct)
    ensures SoftOf(g, old(g.trackers.direct.blockSize)) == {}
  {
    ghost var p, m, soft, t := g.prov[..], g.mem[..], g.softPages, g.trackers.direct;
    ghost var ranges := g.GrabSoftDirty(guest);
    RangesCollect(g, soft, ranges);
    SoftBlocksMarked(g.regions, soft, |m|, |p|, t, ranges);
    NothingSoft(g.regions, |p|, t.blockSize);
    OverlayTwice(p, g.prov[..], m, g.regions);
    FlushPictures(st, ViewOf(g), ViewOf(g), st.unflushed, t, g.trackers.direct);
  }

  lemma RangesCollect(g: MemoryGrabber, soft: set<nat>, ranges: seq<Chunk>)
    requires forall i: nat, a: nat {:trigger In(g.regions, i, a)} | In(g.regions, i, a) && Soft(soft, a) ::
               Found(ranges, Off(g.regions, i, a))
    requires forall c, x: nat | c in ranges && Within(c, x) ::
               exists i: nat, a: nat :: In(g.regions, i, a) && Soft(soft, a) && Off(g.regions, i, a) == x
    ensures Direct.Collects(g.regions, soft, ranges)
  {
    forall i, a | In(g.regions, i, a) && Soft(soft, a)
      ensures Found(ranges, Off(g.regions, i, a))
    {
      assert In(g.regions, i, a);
    }
    forall x: nat | Found(ranges, x)
      ensures exists i, a :: In(g.regions, i, a) && Soft(soft, a) && Off(g.regions, i, a) == x
    {
      var c :| c in ranges && Within(c, x);
      var i: nat, a: nat :| In(g.regions, i, a) && Soft(soft, a) && Off(g.regions, i, a) == x;
      assert In(g.regions, i, a) && Soft(soft, a) && Off(g.regions, i, a) == x;
    }
  }

  lemma OverlayTwice(p: seq<Byte>, q: seq<Byte>, memory: seq<Byte>, rs: seq<Region>)
    requires |p| == |q| && Mapped(rs, |memory|, |p|)
    requires q == p || q == Overlay(p, memory, rs)
    ensures Overlay(q, memory, rs) == Overlay(p, memory, rs)
  {
    OverlayIsImage(p, memory, rs);
    OverlayIsImage(q, memory, rs);
    ImageIsUnique(Overlay(q, memory, rs), Overlay(p, memory, rs), p, memory, rs);
  }

  /** Copying to the device: its readers see the provider, and a write through the device marks what it covers on the
      device's own tracker `t`. The soft-dirty grab of the stopped machine is the flush. */
  method CopyGrabFlushes(g: MemoryGrabber, guest: Guest, ghost st: System.Store, ghost t: Tracker)
    returns (ghost ranges: seq<Chunk>)
    requires g.Valid() && Stopped(guest) && g.updateMemory && g.Covered({}) && t.Tracking? && t.blockSize > 0
    requires Pictures(st, ViewOf(g), g.prov[..], SoftOf(g, t.blockSize), t)
    modifies g, g.mem, g.prov
    ensures g.Valid() && g.prov[..] == old(ViewOf(g)) == ViewOf(g)
    ensures Pictures(System.Flushed(st), ViewOf(g), g.prov[..], {}, MarkAll(t, ranges))
    ensures SoftOf(g, t.blockSize) == {}
  {
    ghost var p, m, soft := g.prov[..], g.mem[..], g.softPages;
    CleanBlocks(g, t.blockSize);
    ranges := g.GrabSoftDirty(guest);
    RangesCollect(g, soft, ranges);
    SoftBlocksMarked(g.regions, soft, |m|, |p|, t, ranges);
    NothingSoft(g.regions, |p|, t.blockSize);
    OverlayTwice(p, g.prov[..], m, g.regions);
    FlushPictures(st, ViewOf(g), p, st.unflushed, t, MarkAll(t, ranges));
  }

  /** A block without a soft-dirty byte is in the provider as in memory. */
  lemma CleanBlocks(g: MemoryGrabber, size: nat)
    requires g.Valid() && g.Covered({}) && size > 0
    ensures forall b | 0 <= b < NumBlocks(g.prov.Length, size) && b !in SoftOf(g, size) ::
              InBlocks(ViewOf(g), size)[b] == InBlocks(g.prov[..], size)[b]
  {
    var p, m, soft := g.prov[..], g.mem[..], g.softPages;
    forall i: nat, a: nat | In(g.regions, i, a) ensures Clean(g.regions, p, m, soft, i, a) {
      assert In(g.regions, i, a) && RegionFits(g.regions[i], |m|, |p|);
    }
    forall b | 0 <= b < NumBlocks(|p|, size) && b !in SoftBlocks(g.regions, soft, |p|, size)
      ensures InBlocks(ViewOf(g), size)[b] == InBlocks(p, size)[b]
    {
      forall x: nat | x < |p| && x / size == b ensures Overlay(p, m, g.regions)[x] == p[x] {
        ByteInBlock(|p|, size, x);
        CleanByte(g.regions, p, m, soft, size, x);
      }
      SameBytes(Overlay(p, m, g.regions), p, size, b);
    }
  }

  ghost predicate Clean(rs: seq<Region>, p: seq<Byte>, m: seq<Byte>, soft: set<nat>, i: nat, a: nat)
    requires In(rs, i, a)
  {
    Off(rs, i, a) < |p| && a < |m| && (p[Off(rs, i, a)] == m[a] || Soft(soft, a))
  }

  lemma CleanByte(rs: seq<Region>, p: seq<Byte>, m: seq<Byte>, soft: set<nat>, size: nat, x: nat)
    requires Mapped(rs, |m|, |p|) && size > 0 && x < |p| && !SoftBlock(rs, soft, size, x / size)
    requires forall i, a | In(rs, i, a) :: Clean(rs, p, m, soft, i, a)
    ensures Overlay(p, m, rs)[x] == p[x]
  {
    if i :| 0 <= i < |rs| && Shows(rs[i], x) {
      var a := rs[i].start + (x - rs[i].offset);
      OverlayShown(p, m, rs, i, x);
      assert In(rs, i, a) && Off(rs, i, a) == x && Clean(rs, p, m, soft, i, a);
      assert !Soft(soft, a);
    } else {
      OverlayHidden(p, m, rs, x);
    }
  }

  /** The same by full comparison. It writes whole stretches of 4 MiB that hold a difference, so it may also mark blocks
      that do not differ: it is the flush after some blocks were touched. */
  method CompareGrabFlushes(g: MemoryGrabber, blockSize: nat, ghost st: System.Store, ghost t: Tracker)
    returns (ghost u: Tracker)
    requires g.Valid() && g.updateMemory && blockSize > 0 && t.Tracking? && t.blockSize > 0
    requires Pictures(st, ViewOf(g), g.prov[..], Differing(g.prov[..], ViewOf(g), t.blockSize), t)
    modifies g, g.prov
    ensures g.Valid() && g.prov[..] == old(ViewOf(g)) == ViewOf(g)
    ensures u == MarkAll(t, AllChunks(old(g.prov[..]), g.mem[..], g.regions, blockSize)) && u.Tracking?
    ensures Pictures(System.Flushed(st.(dirty := st.dirty + u.blocks)), ViewOf(g), g.prov[..], {}, u)
    ensures forall b | b in u.blocks && b !in st.dirty :: b < |st.src|
  {
    ghost var p, m := g.prov[..], g.mem[..];
    ghost var marks := g.GrabFailsafe(blockSize);
    u := MarkAll(t, AllChunks(p, m, g.regions, blockSize));
    ComparedBlocks(p, m, g.regions, blockSize, t);
    OverlayTwice(p, g.prov[..], m, g.regions);
    ghost var touched := st.(dirty := st.dirty + u.blocks);
    FlushPictures(touched, ViewOf(g), p, st.unflushed, u, u);
  }

  /** The blocks that hold a difference. */
  ghost function Differing(p: seq<Byte>, view: seq<Byte>, size: nat): set<nat>
    requires size > 0 && |p| == |view|
  {
    set b: nat | b < NumBlocks(|p|, size) && InBlocks(p, size)[b] != InBlocks(view, size)[b]
  }

  lemma ComparedBlocks(p: seq<Byte>, memory: seq<Byte>, rs: seq<Region>, blockSize: nat, t: Tracker)
    requires blockSize > 0 && Mapped(rs, |memory|, |p|) && t.Tracking? && t.blockSize > 0
    ensures var u := MarkAll(t, AllChunks(p, memory, rs, blockSize));
            && u.Tracking? && u.blockSize == t.blockSize
            && t.blocks + Differing(p, Overlay(p, memory, rs), t.blockSize) <= u.blocks
            && forall b | b in u.blocks && b !in t.blocks :: b < NumBlocks(|p|, t.blockSize)
  {
    var marks := AllChunks(p, memory, rs, blockSize);
    var u := MarkAll(t, marks);
    MarkAllCovers(t, marks);
    forall b | b in Differing(p, Overlay(p, memory, rs), t.blockSize) ensures b in u.blocks {
      DifferingIsMarked(p, memory, rs, blockSize, t, b);
    }
    forall b | b in u.blocks && b !in t.blocks ensures b < NumBlocks(|p|, t.blockSize) {
      var k, x := MarkAllOnly(t, marks, b);
      ChunkInDevice(p, memory, rs, blockSize, marks[k], x);
      ByteInBlock(|p|, t.blockSize, x);
    }
  }

  lemma DifferingIsMarked(p: seq<Byte>, memory: seq<Byte>, rs: seq<Region>, blockSize: nat, t: Tracker, b: nat)
    requires blockSize > 0 && Mapped(rs, |memory|, |p|) && t.Tracking? && t.blockSize > 0
    requires b in Differing(p, Overlay(p, memory, rs), t.blockSize)
    ensures MarkAll(t, AllChunks(p, memory, rs, blockSize)).Tracking?
    ensures b in MarkAll(t, AllChunks(p, memory, rs, blockSize)).blocks
  {
    var view := Overlay(p, memory, rs);
    if forall x: nat | x < |p| && x / t.blockSize == b :: p[x] == view[x] {
      SameBytes(p, view, t.blockSize, b);
    }
    var x: nat :| x < |p| && x / t.blockSize == b && p[x] != view[x];
    if forall i :: 0 <= i < |rs| ==> !Shows(rs[i], x) {
      OverlayHidden(p, memory, rs, x);
    }
    MarkAllCovers(t, AllChunks(p, memory, rs, blockSize));
    ComparedByte(p, memory, rs, blockSize, t, x);
  }

  lemma {:induction false} ChunkInDevice(p: seq<Byte>, memory: seq<Byte>, rs: seq<Region>, blockSize: nat, c: Chunk,
                                         x: nat)
    requires blockSize > 0 && Mapped(rs, |memory|, |p|) && c in AllChunks(p, memory, rs, blockSize) && Within(c, x)
    ensures x < |p|
    decreases |rs|
  {
    var k := |rs| - 1;
    if c in AllChunks(p, memory, rs[..k], blockSize) {
      ChunkInDevice(p, memory, rs[..k], blockSize, c, x);
    } else {
      assert RegionFits(rs[k], |memory|, |p|);
      ChunkInRegion(p, memory, rs[k], rs[k].start, blockSize, c, x);
    }
  }

  lemma {:induction false} ChunkInRegion(p: seq<Byte>, memory: seq<Byte>, r: Region, o: nat, blockSize: nat, c: Chunk,
                                         x: nat)
    requires RegionFits(r, |memory|, |p|) && r.start <= o && blockSize > 0
    requires c in Chunks(p, memory, r, o, blockSize) && Within(c, x)
    ensures x < |p|
    decreases r.end - o
  {
    if c !in Block(p, memory, r, o, blockSize) {
      ChunkInRegion(p, memory, r, o + blockSize, blockSize, c, x);
    }
  }

  // ----- the steps of a grab while the machine runs -----

  /** What happens to the memory device's store: actions of the system under its name, and the driver's fetch. */
  datatype Move =
    | Writes(b: nat, v: seq<Byte>, seen: bool)
    | Back(b: nat)
    | Tears(b: nat, v: seq<Byte>)
    | Touches(b: nat)
    | Fetches

  ghost predicate Moves(st: System.Store, m: Move, next: System.Store) {
    && |st.guest| == |st.src|
    && match m
       case Writes(b, v, seen) => b < |st.guest| && next == System.Written(Handover.MEMORY, st, b, v, seen)
       case Back(b) => b in st.unflushed && b < |st.src| && next == System.WrittenBack(st, b)
       case Tears(b, v) => b in st.unflushed && b < |st.src| && next == System.Torn(st, b, v)
       case Touches(b) => b < |st.src| && next == System.Touched(st, b)
       case Fetches => next == System.Fetched(st)
  }

  /** A byte of block `b` is soft-dirty or waits for its mark. */
  ghost function Unmarked(rs: seq<Region>, w: Direct.World, device: nat): set<nat>
    requires w.tracker.Tracking? && w.tracker.blockSize > 0
  {
    set b: nat | b < NumBlocks(device, w.tracker.blockSize) &&
                 (SoftBlock(rs, w.soft, w.tracker.blockSize, b) || WaitingBlock(w.unmarked, w.tracker.blockSize, b))
  }

  ghost predicate WaitingBlock(unmarked: seq<Chunk>, size: nat, b: nat)
    requires size > 0
  {
    exists x: nat :: Found(unmarked, x) && x / size == b
  }

  /** Direct memory in that picture: `device` is what unmapped offsets hold. */
  ghost predicate Pictured(rs: seq<Region>, device: seq<Byte>, w: Direct.World, st: System.Store) {
    && Mapped(rs, |w.memory|, |device|) && w.tracker.Tracking? && w.tracker.blockSize > 0
    && (forall x: nat | Found(w.unmarked, x) :: x < |device|)
    && var view := Overlay(device, w.memory, rs);
    && Pictures(st, view, view, Unmarked(rs, w, |device|), w.tracker)
  }

  ghost predicate Follows(rs: seq<Region>, device: seq<Byte>, st: System.Store, w: Direct.World) {
    exists next: System.Store :: Pictured(rs, device, w, next) && Linked(Moves, st, next)
  }

  /** Clearing the soft-dirty bits leaves the same blocks without a mark. */
  lemma ClearIsNothing(rs: seq<Region>, device: seq<Byte>, w: Direct.World, ranges: seq<Chunk>, st: System.Store)
    requires Direct.Possible(rs, w, Direct.Clear(ranges)) && Pictured(rs, device, w, st)
    ensures Pictured(rs, device, Direct.Do(rs, w, Direct.Clear(ranges)), st)
  {
    var v, size := Direct.Do(rs, w, Direct.Clear(ranges)), w.tracker.blockSize;
    forall x: nat | Found(ranges, x) ensures x < |device| {
      var i, a :| In(rs, i, a) && Soft(w.soft, a) && Off(rs, i, a) == x;
      Direct.OffInDevice(rs, |w.memory|, |device|, i, a);
    }
    forall b ensures SoftBlock(rs, w.soft, size, b) <==> WaitingBlock(ranges, size, b) {
      CollectedBlock(rs, w.soft, ranges, size, b);
    }
    forall b ensures !WaitingBlock([], size, b) && !SoftBlock(rs, {}, size, b) {
    }
    assert Unmarked(rs, v, |device|) == Unmarked(rs, w, |device|);
  }

  lemma CollectedBlock(rs: seq<Region>, soft: set<nat>, ranges: seq<Chunk>, size: nat, b: nat)
    requires size > 0 && Direct.Collects(rs, soft, ranges)
    ensures SoftBlock(rs, soft, size, b) <==> WaitingBlock(ranges, size, b)
  {
    if SoftBlock(rs, soft, size, b) {
      var i, a :| In(rs, i, a) && Soft(soft, a) && Off(rs, i, a) / size == b;
      assert Found(ranges, Off(rs, i, a));
    }
    if WaitingBlock(ranges, size, b) {
      var x: nat :| Found(ranges, x) && x / size == b;
      var i, a :| In(rs, i, a) && Soft(soft, a) && Off(rs, i, a) == x;
    }
  }

  lemma FetchIsFetched(rs: seq<Region>, device: seq<Byte>, w: Direct.World, st: System.Store)
    requires Direct.Possible(rs, w, Direct.Fetch) && Pictured(rs, device, w, st)
    ensures Pictured(rs, device, Direct.Do(rs, w, Direct.Fetch), System.Fetched(st))
  {
    assert Unmarked(rs, Direct.Do(rs, w, Direct.Fetch), |device|) == Unmarked(rs, w, |device|);
  }

  lemma SendIsNothing(rs: seq<Region>, device: seq<Byte>, w: Direct.World, x: nat, st: System.Store)
    requires Direct.Possible(rs, w, Direct.Send(x)) && Pictured(rs, device, w, st)
    ensures Pictured(rs, device, Direct.Do(rs, w, Direct.Send(x)), st)
  {
    assert Unmarked(rs, Direct.Do(rs, w, Direct.Send(x)), |device|) == Unmarked(rs, w, |device|);
  }

  // ----- a mark -----

  /** Marking a set of blocks one at a time: written back if nothing else is pending there, touched otherwise. `left` is
      what stays without a mark. */
  lemma {:induction false} MarksInTurn(st: System.Store, blocks: set<nat>, left: set<nat>) returns (next: System.Store)
    requires st.guest == st.src && (forall b | b in blocks :: b < |st.src|)
    requires left <= st.unflushed <= left + blocks
    ensures Linked(Moves, st, next)
    ensures next == st.(dirty := st.dirty + blocks, unflushed := left)
    decreases |blocks|
  {
    LinkedToItself<System.Store, Move>(Moves, st);
    if blocks == {} {
      next := st;
      assert st.dirty + blocks == st.dirty;
    } else {
      var b :| b in blocks;
      var back := b in st.unflushed && b !in left;
      var u := if back then System.WrittenBack(st, b) else System.Touched(st, b);
      LinkedOn(Moves, st, st, if back then Back(b) else Touches(b), u);
      assert u.src == st.src;
      next := MarksInTurn(u, blocks - {b}, left);
      LinkedJoins(Moves, st, u, next);
      assert st.dirty + {b} + (blocks - {b}) == st.dirty + blocks;
    }
  }

  lemma MarkIsBack(rs: seq<Region>, device: seq<Byte>, w: Direct.World, st: System.Store) returns (next: System.Store)
    requires Direct.Possible(rs, w, Direct.Mark) && Pictured(rs, device, w, st)
    ensures Linked(Moves, st, next) && Pictured(rs, device, Direct.Do(rs, w, Direct.Mark), next)
  {
    var v, size := Direct.Do(rs, w, Direct.Mark), w.tracker.blockSize;
    var blocks, left := BlocksOf(w.unmarked[0], size), Unmarked(rs, v, |device|);
    forall x: nat | Found(v.unmarked, x) ensures Found(w.unmarked, x) {
      var c :| c in v.unmarked && Within(c, x);
      assert c in w.unmarked;
    }
    forall b | b in blocks ensures b < NumBlocks(|device|, size) {
      var x: nat :| w.unmarked[0].offset <= x < w.unmarked[0].offset + w.unmarked[0].length && x / size == b;
      assert Within(w.unmarked[0], x) && Found(w.unmarked, x);
      ByteInBlock(|device|, size, x);
    }
    MarkLeaves(rs, w, |device|);
    next := MarksInTurn(st, blocks, left);
  }

  lemma MarkLeaves(rs: seq<Region>, w: Direct.World, device: nat)
    requires Direct.Possible(rs, w, Direct.Mark)
    ensures var v := Direct.Do(rs, w, Direct.Mark);
            && v.tracker.Tracking? && v.tracker.blockSize == w.tracker.blockSize
            && Unmarked(rs, v, device) <= Unmarked(rs, w, device)
            && Unmarked(rs, w, device) <= Unmarked(rs, v, device) + BlocksOf(w.unmarked[0], w.tracker.blockSize)
  {
    var v, size := Direct.Do(rs, w, Direct.Mark), w.tracker.blockSize;
    forall b | WaitingBlock(v.unmarked, size, b) ensures WaitingBlock(w.unmarked, size, b) {
      var x: nat :| Found(v.unmarked, x) && x / size == b;
      var c :| c in v.unmarked && Within(c, x);
      assert c in w.unmarked && Found(w.unmarked, x);
    }
    forall b | WaitingBlock(w.unmarked, size, b) && !WaitingBlock(v.unmarked, size, b)
      ensures b in BlocksOf(w.unmarked[0], size)
    {
      var x: nat :| Found(w.unmarked, x) && x / size == b;
      FoundFirstOrLater(w.unmarked, x);
    }
  }

  lemma FoundFirstOrLater(cs: seq<Chunk>, x: nat)
    requires cs != [] && Found(cs, x)
    ensures Within(cs[0], x) || Found(cs[1..], x)
  {
    var c :| c in cs && Within(c, x);
    if c != cs[0] {
      assert c in cs[1..];
    }
  }

  // ----- a guest write -----

  /** Writing a set of blocks one at a time. */
  lemma {:induction false} WritesInTurn(st: System.Store, view: seq<seq<Byte>>, blocks: set<nat>)
    returns (next: System.Store)
    requires st.guest == st.src && |view| == |st.guest| && (forall b | b in blocks :: b < |view|)
    requires forall b | 0 <= b < |view| && b !in blocks :: st.guest[b] == view[b]
    ensures Linked(Moves, st, next)
    ensures next == st.(guest := view, src := view, unflushed := st.unflushed + blocks)
    decreases |blocks|
  {
    LinkedToItself<System.Store, Move>(Moves, st);
    if blocks == {} {
      next := st;
      assert st.unflushed + blocks == st.unflushed;
    } else {
      var b :| b in blocks;
      var u := System.Written(Handover.MEMORY, st, b, view[b], true);
      LinkedOn(Moves, st, st, Writes(b, view[b], true), u);
      next := WritesInTurn(u, view, blocks - {b});
      LinkedJoins(Moves, st, u, next);
      assert st.unflushed + {b} + (blocks - {b}) == st.unflushed + blocks;
    }
  }

  /** A byte write dirties its page, and so perhaps several blocks; those it does not change are written as they are. */
  lemma WriteIsWritten(rs: seq<Region>, device: seq<Byte>, w: Direct.World, a: nat, value: Byte, st: System.Store)
    returns (next: System.Store)
    requires Direct.Possible(rs, w, Direct.Write(a, value)) && Pictured(rs, device, w, st)
    ensures Linked(Moves, st, next) && Pictured(rs, device, Direct.Do(rs, w, Direct.Write(a, value)), next)
  {
    var v, size := Direct.Do(rs, w, Direct.Write(a, value)), w.tracker.blockSize;
    var view := InBlocks(Overlay(device, v.memory, rs), size);
    var blocks := Unmarked(rs, v, |device|);
    assert Unmarked(rs, w, |device|) <= blocks by {
      SoftGrows(rs, w.soft, v.soft, size);
    }
    forall b | 0 <= b < |view| && b !in blocks ensures st.guest[b] == view[b] {
      UnwrittenBlock(rs, device, w.memory, a, value, w.soft, size, b);
    }
    next := WritesInTurn(st, view, blocks);
    assert st.unflushed + blocks == blocks;
  }

  lemma SoftGrows(rs: seq<Region>, soft: set<nat>, more: set<nat>, size: nat)
    requires size > 0 && soft <= more
    ensures forall b | SoftBlock(rs, soft, size, b) :: SoftBlock(rs, more, size, b)
  {
    forall b | SoftBlock(rs, soft, size, b) ensures SoftBlock(rs, more, size, b) {
      var i, a :| In(rs, i, a) && Soft(soft, a) && Off(rs, i, a) / size == b;
      assert Soft(more, a);
    }
  }

  lemma UnwrittenBlock(rs: seq<Region>, device: seq<Byte>, memory: seq<Byte>, a: nat, value: Byte, soft: set<nat>,
                       size: nat, b: nat)
    requires Mapped(rs, |memory|, |device|) && a < |memory| && size > 0 && b < NumBlocks(|device|, size)
    requires !SoftBlock(rs, soft + {a / PAGE}, size, b)
    ensures InBlocks(Overlay(device, memory[a := value], rs), size)[b] == InBlocks(Overlay(device, memory, rs), size)[b]
  {
    var p, q := Overlay(device, memory, rs), Overlay(device, memory[a := value], rs);
    forall x: nat | x < |device| && x / size == b ensures p[x] == q[x] {
      UnwrittenByte(rs, device, memory, a, value, x, soft, size);
    }
    SameBytes(q, p, size, b);
  }

  lemma UnwrittenByte(rs: seq<Region>, device: seq<Byte>, memory: seq<Byte>, a: nat, value: Byte, x: nat,
                      soft: set<nat>, size: nat)
    requires Mapped(rs, |memory|, |device|) && a < |memory| && x < |device| && size > 0
    requires !SoftBlock(rs, soft + {a / PAGE}, size, x / size)
    ensures Overlay(device, memory, rs)[x] == Overlay(device, memory[a := value], rs)[x]
  {
    if i :| 0 <= i < |rs| && Shows(rs[i], x) {
      var at := rs[i].start + (x - rs[i].offset);
      OverlayShown(device, memory, rs, i, x);
      OverlayShown(device, memory[a := value], rs, i, x);
      assert In(rs, i, at) && Off(rs, i, at) == x;
      assert !Soft(soft + {a / PAGE}, at);
    } else {
      OverlayHidden(device, memory, rs, x);
      OverlayHidden(device, memory[a := value], rs, x);
    }
  }

  // ----- runs -----

  lemma EventFollows(rs: seq<Region>, device: seq<Byte>, w: Direct.World, e: Direct.Event, st: System.Store)
    requires Direct.Possible(rs, w, e) && Follows(rs, device, st, w)
    ensures Follows(rs, device, st, Direct.Do(rs, w, e))
  {
    var here: System.Store :| Pictured(rs, device, w, here) && Linked(Moves, st, here);
    var next := here;
    match e {
      case Write(a, value) =>
        next := WriteIsWritten(rs, device, w, a, value, here);
        LinkedJoins(Moves, st, here, next);
      case Clear(ranges) =>
        ClearIsNothing(rs, device, w, ranges, here);
      case Mark =>
        next := MarkIsBack(rs, device, w, here);
        LinkedJoins(Moves, st, here, next);
      case Fetch =>
        FetchIsFetched(rs, device, w, here);
        next := System.Fetched(here);
        LinkedOn(Moves, st, here, Fetches, next);
      case Send(x) =>
        SendIsNothing(rs, device, w, x, here);
    }
  }

  /** Every run of direct memory under a migration is a run of the memory device of the handover. */
  lemma DirectRunIsHandover(rs: seq<Region>, device: seq<Byte>, ws: seq<Direct.World>, es: seq<Direct.Event>,
                            st: System.Store, k: nat)
    requires Direct.Run(rs, ws, es) && k < |ws| && Pictured(rs, device, ws[0], st)
    ensures Follows(rs, device, st, ws[k])
  {
    LinkedToItself<System.Store, Move>(Moves, st);
    var follows := (w: Direct.World) => Follows(rs, device, st, w);
    forall i | 0 <= i < |ws| - 1 && follows(ws[i]) ensures follows(ws[i + 1]) {
      EventFollows(rs, device, ws[i], es[i], st);
    }
    Stepwise(ws, follows, 0, k);
  }
}
